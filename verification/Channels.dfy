/** One channel of ch.c among all that the cords of a braid do: a state machine
    over that of the scheduler. */
module Channels {
  import opened Sched

  // ---------------------------------------------------------------------
  // State
  // ---------------------------------------------------------------------

  /** A queue element: who waits, with which value, in `chsend` or `chrecv`. */
  datatype Elt = Elt(cord: nat, val: nat, send: bool)

  /** What became of a call of `chrecv`: still queued, paired with a send, found
      dead by a send, or turned away from a closed channel. */
  datatype Fate = Queued | Paired(send: nat) | Dead | Shut

  /** What a call of `chrecv` returned. */
  datatype Outcome = Value(val: nat) | NotOk

  /** The channel's identity, the scheduler, the channel (`queue` holds the addresses of its elements,
      `gone` says that it was freed) and the elements in memory, allocated from
      `top` on; then what happened so far: the elements freed, the values
      sent, the fate and the result of each receive, the receives that took the
      sends, in the order of the sends, the call that each element is of, the
      element of each receive that was queued, and what each send that blocked
      returned. */
  datatype Chan = Chan(id: nat, sched: State, closed: bool, gone: bool, queue: seq<nat>, elts: map<nat, Elt>, top: nat,
                       freed: seq<nat>, sends: seq<nat>, fates: seq<Fate>, outcomes: map<nat, Outcome>,
                       takers: seq<nat>, noOf: map<nat, nat>, eltOf: map<nat, nat>,
                       replies: map<nat, nat>)

  /** chopen */
  function Open(id: nat, s: State): Chan {
    Chan(id, s, false, false, [], map[], 1, [], [], [], map[], [], map[], map[], map[])
  }

  /** Where the cord of an element waits. */
  function WaitPoint(id: nat, a: nat, send: bool): Point {
    AfterBlock(if send then OnSend(id, a) else OnRecv(id, a))
  }

  predicate Sends(at: Point, id: nat) {
    at.AfterBlock? && at.why.OnSend? && at.why.ch == id
  }

  predicate Receives(at: Point, id: nat) {
    at.AfterBlock? && at.why.OnRecv? && at.why.ch == id
  }

  /** Whether a cord waits in a call on the channel. */
  predicate OnChannel(at: Point, id: nat) {
    Sends(at, id) || Receives(at, id)
  }

  // ---------------------------------------------------------------------
  // Steps
  // ---------------------------------------------------------------------

  predicate Sending(c: Chan) {
    c.queue != [] && c.queue[0] in c.elts && c.elts[c.queue[0]].send
  }

  predicate Receiving(c: Chan) {
    c.queue != [] && c.queue[0] in c.elts && !c.elts[c.queue[0]].send
  }

  function Free(c: Chan, a: nat): Chan {
    c.(elts := c.elts - {a}, freed := c.freed + [a])
  }

  /** The element whose `chrecv` the executing cord, if it was just resumed,
      goes on in. */
  function Resumes(c: Chan): Option<nat> {
    match c.sched.exec
    case Running(k) =>
      if Receives(k.at, c.id) && k.at.why.elt in c.elts && k.at.why.elt in c.noOf
      then Some(k.at.why.elt) else None
    case _ => None
  }

  /** What that `chrecv` returns. */
  function Result(c: Chan): Option<Outcome> {
    if Resumes(c).Some? then
      Some(if c.sched.exec.cord.val != 0 then Value(c.elts[Resumes(c).value].val) else NotOk)
    else None
  }

  /** Whether the executing cord, if it was just resumed, returns from `chsend`. */
  predicate SendReturns(c: Chan) {
    c.sched.exec.Running? && Sends(c.sched.exec.cord.at, c.id) && c.sched.exec.cord.at.why.elt in c.noOf
  }

  /** The end of `chrecv` in a cord that goes on: the element is read and freed. */
  function Collect(c: Chan): Chan {
    if Resumes(c).Some? then
      var a := Resumes(c).value;
      Free(c, a).(outcomes := c.outcomes[c.noOf[a] := Result(c).value])
    else c
  }

  /** The end of `chsend` in a cord that goes on. */
  function Reply(c: Chan): Chan {
    if SendReturns(c) then
      c.(replies := c.replies[c.noOf[c.sched.exec.cord.at.why.elt] := c.sched.exec.cord.val])
    else c
  }

  /** What the cord that goes on does on this channel. */
  function Settle(c: Chan): Chan {
    Reply(Collect(c))
  }

  /** The executing cord queues an element and blocks. */
  function Enqueue(c: Chan, v: nat, send: bool): Chan
    requires c.sched.exec.Running?
  {
    Settle(Dispatched(Queue(c, v, send)))
  }

  function Dispatched(c: Chan): Chan {
    c.(sched := Dispatch(c.sched))
  }

  /** Up to the switch to the next cord. */
  function Queue(c: Chan, v: nat, send: bool): Chan
    requires c.sched.exec.Running?
  {
    var a, s := c.top, c.sched;
    var me := s.exec.cord.(at := WaitPoint(c.id, a, send));
    c.(elts := c.elts[a := Elt(me.id, if send then v else 0, send)],
       queue := c.queue + [a],
       top := a + 1,
       noOf := c.noOf[a := if send then |c.sends| else |c.fates|],
       sends := if send then c.sends + [v] else c.sends,
       fates := if send then c.fates else c.fates + [Queued],
       eltOf := if send then c.eltOf else c.eltOf[|c.fates| := a],
       sched := s.(exec := Returning, blocked := s.blocked + [me]))
  }

  /** Whether the cord of the first element is still blocked. */
  predicate FirstWaits(c: Chan) {
    c.queue != [] && c.queue[0] in c.elts && IsBlocked(c.sched, c.elts[c.queue[0]].cord)
  }

  /** The first receiver is not to be woken any more: its element is freed. */
  function Skip(c: Chan): Chan
    requires c.queue != []
  {
    var a := c.queue[0];
    Free(c, a).(queue := c.queue[1..],
                fates := if a in c.noOf && c.noOf[a] < |c.fates| then c.fates[c.noOf[a] := Dead] else c.fates)
  }

  /** The first receiver gets the value. */
  function Hand(c: Chan, v: nat): Chan
    requires Receiving(c)
  {
    var a := c.queue[0];
    c.(queue := c.queue[1..],
       elts := c.elts[a := c.elts[a].(val := v)],
       sched := Wake(c.sched, c.elts[a].cord, 1),
       sends := c.sends + [v],
       fates := if a in c.noOf && c.noOf[a] < |c.fates| then c.fates[c.noOf[a] := Paired(|c.sends|)] else c.fates,
       takers := c.takers + [if a in c.noOf then c.noOf[a] else 0])
  }

  /** chsend of an open channel. */
  function Send(c: Chan, v: nat): Chan
    requires c.sched.exec.Running?
    decreases |c.queue|
  {
    if Receiving(c) then
      if FirstWaits(c) then Hand(c, v) else Send(Skip(c), v)
    else Enqueue(c, v, true)
  }

  /** What `chsend` returns without blocking. */
  function SendResult(c: Chan): Option<int>
    decreases |c.queue|
  {
    if c.closed then Some(-1)
    else if Receiving(c) then
      if FirstWaits(c) then Some(0) else SendResult(Skip(c))
    else None
  }

  /** The first sender's value is taken, and the sender woken. */
  function Take(c: Chan): Chan
    requires Sending(c)
  {
    var a := c.queue[0];
    var no := if a in c.noOf then c.noOf[a] else 0;
    Free(c, a).(queue := c.queue[1..],
                sched := Wake(c.sched, c.elts[a].cord, 0),
                fates := c.fates + [Paired(no)],
                outcomes := c.outcomes[|c.fates| := Value(c.elts[a].val)],
                takers := c.takers + [|c.fates|])
  }

  /** chrecv */
  function Recv(c: Chan): Chan
    requires c.sched.exec.Running?
  {
    if c.closed && c.queue == [] then
      c.(fates := c.fates + [Shut], outcomes := c.outcomes[|c.fates| := NotOk])
    else if Sending(c) then Take(c)
    else Enqueue(c, 0, false)
  }

  /** What `chrecv` returns without blocking. */
  function RecvResult(c: Chan): Option<Outcome> {
    if c.closed && c.queue == [] then Some(NotOk)
    else if Sending(c) then Some(Value(c.elts[c.queue[0]].val))
    else None
  }

  /** The waiting receivers are woken in order. */
  function WakeAll(s: State, elts: map<nat, Elt>, q: seq<nat>): State
    decreases |q|
  {
    if q == [] then s
    else if q[0] in elts then WakeAll(Wake(s, elts[q[0]].cord, 0), elts, q[1..])
    else WakeAll(s, elts, q[1..])
  }

  /** The receives still queued are turned away. */
  function ShutQueued(fates: seq<Fate>): (r: seq<Fate>)
    ensures |r| == |fates|
    ensures forall i :: 0 <= i < |fates| ==> r[i] == if fates[i].Queued? then Shut else fates[i]
  {
    seq(|fates|, i requires 0 <= i < |fates| => if fates[i].Queued? then Shut else fates[i])
  }

  /** chclose */
  function Close(c: Chan): Chan {
    if c.queue == [] then c.(gone := true)
    else if Receiving(c) then
      c.(closed := true, gone := true, queue := [], sched := WakeAll(c.sched, c.elts, c.queue),
         fates := ShutQueued(c.fates))
    else c.(closed := true)
  }

  /** A step of the cords that is no call on this channel. */
  function Elsewhere(c: Chan, step: Step): Chan
    requires Enabled(c.sched, step)
  {
    var t := c.(sched := Next(c.sched, step));
    if Switches(step) then Settle(t) else t
  }

  datatype Call = Sent(val: nat) | Received | Closed | Other(step: Step)

  /** The other cords neither wait on this channel's elements nor wake those
      that do, and the channel is not used once it is freed. */
  predicate Possible(c: Chan, call: Call) {
    match call
    case Other(step) =>
      && Enabled(c.sched, step)
      && (step.Block? ==> !OnChannel(AfterBlock(step.why), c.id))
      && (step.Unblock? ==> forall k :: k in c.sched.blocked && k.id == step.id ==> !OnChannel(k.at, c.id))
    case _ => c.sched.exec.Running? && !c.gone
  }

  function Perform(c: Chan, call: Call): Chan
    requires Possible(c, call)
  {
    match call
    case Sent(v) => if c.closed then c else Send(c, v)
    case Received => Recv(c)
    case Closed => Close(c)
    case Other(step) => Elsewhere(c, step)
  }

  predicate Runs(c: Chan, calls: seq<Call>)
    decreases |calls|
  {
    calls == [] || (Possible(c, calls[0]) && Runs(Perform(c, calls[0]), calls[1..]))
  }

  function AfterCalls(c: Chan, calls: seq<Call>): Chan
    requires Runs(c, calls)
    decreases |calls|
  {
    if calls == [] then c else AfterCalls(Perform(c, calls[0]), calls[1..])
  }

  /** Steps of other cords. */
  function AsCalls(steps: seq<Step>): (r: seq<Call>)
    ensures |r| == |steps| && forall i :: 0 <= i < |steps| ==> r[i] == Call.Other(steps[i])
  {
    seq(|steps|, i requires 0 <= i < |steps| => Call.Other(steps[i]))
  }

  lemma {:induction false} CallsOn(c: Chan, calls: seq<Call>, more: seq<Call>)
    requires Runs(c, calls) && Runs(AfterCalls(c, calls), more)
    ensures Runs(c, calls + more) && AfterCalls(c, calls + more) == AfterCalls(AfterCalls(c, calls), more)
    decreases |calls|
  {
    hide Possible, Perform;
    if calls == [] {
      assert calls + more == more;
    } else {
      CallsOn(Perform(c, calls[0]), calls[1..], more);
      assert (calls + more)[1..] == calls[1..] + more;
    }
  }

  // ---------------------------------------------------------------------
  // Invariant: memory and cords
  // ---------------------------------------------------------------------

  ghost predicate MemoryOk(c: Chan) {
    && (forall a :: a in c.noOf ==> a < c.top)
    && (forall a :: a in c.elts ==> a in c.noOf)
    && (forall i :: 0 <= i < |c.freed| ==> c.freed[i] < c.top && c.freed[i] !in c.elts)
    && (forall i, j :: 0 <= i < j < |c.freed| ==> c.freed[i] != c.freed[j])
  }

  /** The queue holds waiting senders only, or waiting receivers only. */
  ghost predicate QueueOk(c: Chan) {
    && (forall i :: 0 <= i < |c.queue| ==> c.queue[i] in c.elts)
    && (forall i, j :: 0 <= i < j < |c.queue| ==> c.queue[i] != c.queue[j])
    && (forall i :: 0 <= i < |c.queue| ==> c.elts[c.queue[i]].send == Sending(c))
    && (c.closed && c.queue != [] ==> Sending(c))
    && (c.gone ==> c.queue == [])
  }

  /** The outcome is right for the receive with this number. */
  ghost predicate Fits(c: Chan, i: nat, out: Outcome) {
    && i < |c.fates|
    && match out
       case Value(v) => c.fates[i].Paired? && c.fates[i].send < |c.sends| && c.sends[c.fates[i].send] == v
       case NotOk => c.fates[i].Shut?
  }

  /** A runnable cord that waited on the channel: a sender's value was taken,
      a receiver's element is its own and holds what it is to return. */
  ghost predicate RunOk(c: Chan, k: Cord) {
    && RepliesWell(c, k)
    && (Receives(k.at, c.id) ==>
          var a := k.at.why.elt;
          && a in c.elts && a !in c.queue && !c.elts[a].send && c.elts[a].cord == k.id && a in c.noOf
          && Fits(c, c.noOf[a], if k.val != 0 then Value(c.elts[a].val) else NotOk))
  }

  /** A cord that is blocked on the channel has its element in the queue. */
  ghost predicate BlockOk(c: Chan, k: Cord) {
    OnChannel(k.at, c.id) ==>
      && k.at.why.elt in c.queue && k.at.why.elt in c.elts
      && c.elts[k.at.why.elt].cord == k.id && c.elts[k.at.why.elt].send == k.at.why.OnSend?
  }

  /** The cord of a queued element is blocked on it, or dead. */
  ghost predicate WaiterOk(s: State, id: nat, a: nat, e: Elt) {
    && e.cord < s.count && Executing(s.exec, e.cord) == 0
    && (forall k :: k in s.runable ==> k.id != e.cord)
    && (forall k :: k in s.blocked && k.id == e.cord ==> k.at == WaitPoint(id, a, e.send))
  }

  ghost predicate CordsOk(c: Chan) {
    && (forall k :: k in c.sched.runable ==> RunOk(c, k))
    && (forall k :: k in c.sched.blocked ==> BlockOk(c, k))
    && (forall i :: 0 <= i < |c.queue| && c.queue[i] in c.elts ==>
          WaiterOk(c.sched, c.id, c.queue[i], c.elts[c.queue[i]]))
  }

  // ---------------------------------------------------------------------
  // Invariant: order
  // ---------------------------------------------------------------------

  /** The sends were taken in order by ever later receives. */
  ghost predicate TakenInOrder(c: Chan) {
    && (forall m :: 0 <= m < |c.takers| ==> c.takers[m] < |c.fates| && c.fates[c.takers[m]] == Paired(m))
    && (forall m, n :: 0 <= m < n < |c.takers| ==> c.takers[m] < c.takers[n])
    && (forall i :: 0 <= i < |c.fates| && c.fates[i].Paired? ==>
          c.fates[i].send < |c.takers| && c.takers[c.fates[i].send] == i)
  }

  /** The queue is the unmatched end of the longer history. */
  ghost predicate Unmatched(c: Chan) {
    if Sending(c) then
      && |c.takers| + |c.queue| == |c.sends|
      && (forall i :: 0 <= i < |c.queue| && c.queue[i] in c.elts && c.queue[i] in c.noOf ==>
            c.noOf[c.queue[i]] == |c.takers| + i && c.elts[c.queue[i]].val == c.sends[|c.takers| + i])
      && (forall i :: 0 <= i < |c.fates| ==> !c.fates[i].Queued?)
    else
      && |c.takers| == |c.sends| && |c.queue| <= |c.fates|
      && (forall i :: 0 <= i < |c.queue| && c.queue[i] in c.noOf ==> c.noOf[c.queue[i]] == |c.fates| - |c.queue| + i)
      && (forall i :: 0 <= i < |c.fates| ==> (c.fates[i].Queued? <==> i >= |c.fates| - |c.queue|))
  }

  ghost predicate OutcomesOk(c: Chan) {
    && (forall i :: i in c.outcomes ==> Fits(c, i, c.outcomes[i]))
    && (forall n :: n in c.replies ==> c.replies[n] == 0 && n < |c.takers|)
  }

  ghost predicate InOrder(c: Chan) {
    TakenInOrder(c) && Unmatched(c) && OutcomesOk(c)
  }

  ghost predicate ChanInv(c: Chan) {
    ChanInvFacts(c) == true
  }

  ghost predicate ChanInvFacts(c: Chan) {
    Inv(c.sched) && MemoryOk(c) && QueueOk(c) && CordsOk(c) && InOrder(c)
  }

  // ---------------------------------------------------------------------
  // Every step keeps the invariant
  // ---------------------------------------------------------------------

  lemma OpenInv(id: nat, s: State)
    requires Inv(s)
    requires forall k :: k in s.runable || k in s.blocked ==> !OnChannel(k.at, id)
    ensures ChanInv(Open(id, s))
  {
  }

  /** Runnable cords are different cords. */
  lemma RunableDiffer(s: State)
    requires Counted(s)
    ensures forall i, j :: 0 <= i < j < |s.runable| ==> s.runable[i].id != s.runable[j].id
  {
    forall i, j | 0 <= i < j < |s.runable| ensures s.runable[i].id != s.runable[j].id {
      OnlyThere(s, AsRunable, i);
      assert CordsAt(s, AsRunable) == s.runable;
    }
  }

  /** What settling leaves as it was. */
  ghost predicate OnlySettled(c: Chan, e: Chan) {
    && e.id == c.id && e.sched == c.sched && e.closed == c.closed && e.gone == c.gone
    && e.queue == c.queue && e.top == c.top && e.sends == c.sends && e.fates == c.fates
    && e.takers == c.takers && e.noOf == c.noOf && e.eltOf == c.eltOf
    && c.outcomes.Keys <= e.outcomes.Keys
    && (forall a :: a in e.elts ==> a in c.elts && e.elts[a] == c.elts[a])
    && (forall a :: a in c.elts && a !in e.elts ==> Resumes(c) == Some(a))
  }

  lemma SettleLeaves(c: Chan)
    ensures OnlySettled(c, Settle(c))
    ensures Resumes(c).Some? ==> c.noOf[Resumes(c).value] in Settle(c).outcomes
  {
    hide Collect, Reply;
    CollectLeaves(c);
    ReplyLeaves(Collect(c));
  }

  lemma CollectLeaves(c: Chan)
    ensures OnlySettled(c, Collect(c))
    ensures Resumes(c).Some? ==> c.noOf[Resumes(c).value] in Collect(c).outcomes
  {
  }

  lemma ReplyLeaves(c: Chan)
    ensures Reply(c) == c.(replies := Reply(c).replies)
  {
  }

  /** In order, with no cord executing, just before a switch. */
  ghost predicate AtSwitch(c: Chan) {
    AtSwitchFacts(c) == true
  }

  ghost predicate AtSwitchFacts(c: Chan) {
    && c.sched.exec.Returning? && Counted(c.sched) && FreedByOthers(c.sched.log)
    && MemoryOk(c) && QueueOk(c) && CordsOk(c) && InOrder(c)
  }

  /** The next cord goes on: in `chrecv` its element is in memory and not in
      the queue, and is read and freed. */
  lemma SwitchKeeps(c: Chan)
    requires AtSwitch(c)
    ensures ChanInv(Settle(Dispatched(c)))
    ensures var d := Dispatched(c);
            d.sched.exec.Running? && Receives(d.sched.exec.cord.at, c.id) ==>
              var a := d.sched.exec.cord.at.why.elt;
              && a in c.elts && a !in c.queue && a in c.noOf
              && a !in Settle(d).elts && Settle(d).freed == c.freed + [a]
  {
    hide Dispatch, MemoryOk, InOrder, QueueOk, CordsOk, Inv, RunOk, Collect, Reply, RepliesWell, Counted;
    var d := Dispatched(c);
    SwitchParts(c);
    CollectMemory(c, d);
    CollectOutcomes(c, d);
    CollectQueue(c, d);
    CollectCords(c, d);
    CollectFrees(c, d);
    CollectLeaves(d);
    ReplyKeeps(Collect(d));
    ReplyLeaves(Collect(d));
  }

  /** The cord that goes on was runnable. */
  lemma SwitchParts(c: Chan)
    requires AtSwitch(c)
    ensures MemoryOk(c) && QueueOk(c) && CordsOk(c) && InOrder(c)
    ensures var s := Dispatch(c.sched);
            && Inv(s) && s.blocked == c.sched.blocked && s.count == c.sched.count
            && (s.exec.Running? ==> s.exec.cord in c.sched.runable && RunOk(c, s.exec.cord))
            && (forall k :: k in s.runable ==> k in c.sched.runable)
            && (s.exec.Running? ==> forall k :: k in s.runable ==> k.id != s.exec.cord.id)
  {
    hide MemoryOk, InOrder, QueueOk, RunOk, BlockOk, WaiterOk, Inv, Counted;
    DispatchKeeps(c.sched);
    DispatchSets(c.sched);
    RunableDiffer(c.sched);
  }

  lemma CollectFrees(c: Chan, d: Chan)
    requires d == Dispatched(c) && (d.sched.exec.Running? ==> RunOk(c, d.sched.exec.cord))
    ensures d.sched.exec.Running? && Receives(d.sched.exec.cord.at, c.id) ==>
              var a := d.sched.exec.cord.at.why.elt;
              && a in c.elts && a !in c.queue && a in c.noOf
              && a !in Collect(d).elts && Collect(d).freed == c.freed + [a]
  {
    hide Dispatch, RepliesWell, Fits;
  }

  lemma CollectMemory(c: Chan, d: Chan)
    requires MemoryOk(c) && d == Dispatched(c)
    requires d.sched.exec.Running? ==> RunOk(c, d.sched.exec.cord)
    ensures MemoryOk(Collect(d))
  {
    hide Dispatch;
  }

  lemma CollectQueue(c: Chan, d: Chan)
    requires QueueOk(c) && d == Dispatched(c)
    requires d.sched.exec.Running? ==> RunOk(c, d.sched.exec.cord)
    ensures QueueOk(Collect(d))
  {
    hide Dispatch;
  }

  lemma CollectOutcomes(c: Chan, d: Chan)
    requires QueueOk(c) && InOrder(c) && d == Dispatched(c)
    requires d.sched.exec.Running? ==> RunOk(c, d.sched.exec.cord)
    ensures InOrder(Collect(d))
  {
    hide Dispatch;
  }

  lemma CollectCords(c: Chan, d: Chan)
    requires QueueOk(c) && CordsOk(c) && d == Dispatched(c)
    requires d.sched.exec.Running? ==> d.sched.exec.cord in c.sched.runable
    requires d.sched.blocked == c.sched.blocked && d.sched.count == c.sched.count
    requires d.sched.exec.Running? ==> RunOk(c, d.sched.exec.cord)
    requires forall k :: k in d.sched.runable ==> k in c.sched.runable
    requires d.sched.exec.Running? ==> forall k :: k in d.sched.runable ==> k.id != d.sched.exec.cord.id
    ensures CordsOk(Collect(d))
    ensures d.sched.exec.Running? ==> RepliesWell(Collect(d), d.sched.exec.cord)
  {
    hide Dispatch, WaiterOk, RunOk;
    var e := Collect(d);
    forall k | k in e.sched.runable ensures RunOk(e, k) {
      CollectRuns(c, d, k);
    }
    forall k | k in e.sched.blocked ensures BlockOk(e, k) {
      CollectBlocks(c, d, k);
    }
    CollectReplies(c, d);
    CollectWaits(c, d);
  }

  lemma CollectReplies(c: Chan, d: Chan)
    requires d == Dispatched(c) && (d.sched.exec.Running? ==> RunOk(c, d.sched.exec.cord))
    ensures d.sched.exec.Running? ==> RepliesWell(Collect(d), d.sched.exec.cord)
  {
    hide Dispatch;
  }

  lemma CollectRuns(c: Chan, d: Chan, k: Cord)
    requires d == Dispatched(c) && RunOk(c, k)
    requires d.sched.exec.Running? ==> RunOk(c, d.sched.exec.cord) && k.id != d.sched.exec.cord.id
    ensures RunOk(Collect(d), k)
  {
    hide Dispatch;
  }

  lemma CollectBlocks(c: Chan, d: Chan, k: Cord)
    requires d == Dispatched(c) && BlockOk(c, k)
    requires d.sched.exec.Running? ==> RunOk(c, d.sched.exec.cord)
    ensures BlockOk(Collect(d), k)
  {
    hide Dispatch, Fits;
  }

  lemma CollectWaits(c: Chan, d: Chan)
    requires QueueOk(c) && CordsOk(c) && d == Dispatched(c)
    requires d.sched.exec.Running? ==> d.sched.exec.cord in c.sched.runable && RunOk(c, d.sched.exec.cord)
    requires d.sched.blocked == c.sched.blocked && d.sched.count == c.sched.count
    requires forall k :: k in d.sched.runable ==> k in c.sched.runable
    ensures var e := Collect(d);
            forall i :: 0 <= i < |e.queue| && e.queue[i] in e.elts ==>
              WaiterOk(e.sched, e.id, e.queue[i], e.elts[e.queue[i]])
  {
    hide Dispatch, RunOk, BlockOk, Fits;
    var e := Collect(d);
    forall i | 0 <= i < |e.queue| && e.queue[i] in e.elts
      ensures WaiterOk(e.sched, e.id, e.queue[i], e.elts[e.queue[i]])
    {
      assert WaiterOk(c.sched, c.id, c.queue[i], c.elts[c.queue[i]]);
    }
  }

  /** A cord that returns from `chsend` returns 0, and its value was taken. */
  ghost predicate RepliesWell(c: Chan, k: Cord) {
    Sends(k.at, c.id) ==> k.val == 0 && k.at.why.elt in c.noOf && c.noOf[k.at.why.elt] < |c.takers|
  }

  lemma ReplyKeeps(c: Chan)
    requires MemoryOk(c) && QueueOk(c) && CordsOk(c) && InOrder(c)
    requires c.sched.exec.Running? ==> RepliesWell(c, c.sched.exec.cord)
    ensures MemoryOk(Reply(c)) && QueueOk(Reply(c)) && CordsOk(Reply(c)) && InOrder(Reply(c))
  {
    var d := Reply(c);
    assert CordsOk(d) by {
      forall k | k in d.sched.runable ensures RunOk(d, k) {
        assert RunOk(c, k);
      }
      forall k | k in d.sched.blocked ensures BlockOk(d, k) {
        assert BlockOk(c, k);
      }
    }
    hide CordsOk;
  }

  /** No queued element is of the cord. */
  ghost predicate NoWaiter(c: Chan, id: nat) {
    forall i :: 0 <= i < |c.queue| && c.queue[i] in c.elts ==> c.elts[c.queue[i]].cord != id
  }

  /** The runnable and blocked cords of `t` were so before, or do not wait on
      the channel. */
  ghost predicate MovesOthers(c: Chan, t: State) {
    && t.count >= c.sched.count
    && (forall k :: k in t.runable ==> k in c.sched.runable || (RunOk(c, k) && NoWaiter(c, k.id)))
    && (forall k :: k in t.blocked ==> k in c.sched.blocked || (!OnChannel(k.at, c.id) && NoWaiter(c, k.id)))
    && (t.exec.Running? ==> NoWaiter(c, t.exec.cord.id))
  }

  lemma OthersMoved(c: Chan, t: State)
    requires CordsOk(c) && MovesOthers(c, t)
    ensures CordsOk(c.(sched := t))
  {
    var d := c.(sched := t);
    forall k | k in t.runable ensures RunOk(d, k) {
      assert RunOk(c, k);
    }
    forall k | k in t.blocked ensures BlockOk(d, k) {
      if k in c.sched.blocked {
        assert BlockOk(c, k);
      }
    }
  }

  lemma SchedOnly(c: Chan, t: State)
    requires MemoryOk(c) && QueueOk(c) && InOrder(c)
    ensures var d := c.(sched := t); MemoryOk(d) && QueueOk(d) && InOrder(d)
  {
  }

  lemma ElsewhereKeeps(c: Chan, step: Step)
    requires ChanInv(c) && Possible(c, Other(step))
    ensures ChanInv(Elsewhere(c, step))
  {
    if Switches(step) {
      ElsewhereSuspends(c, step);
      SwitchKeeps(c.(sched := Suspended(c.sched, step)));
    } else {
      StepKeeps(c.sched, step);
      ElsewhereMoves(c, step, Next(c.sched, step));
      hide Next, MemoryOk, QueueOk, InOrder, CordsOk, Inv;
      OthersMoved(c, Next(c.sched, step));
      SchedOnly(c, Next(c.sched, step));
    }
  }

  /** Another cord is about to switch to the next. */
  lemma ElsewhereSuspends(c: Chan, step: Step)
    requires ChanInv(c) && Possible(c, Other(step)) && Switches(step)
    ensures AtSwitch(c.(sched := Suspended(c.sched, step)))
    ensures Next(c.sched, step) == Dispatch(Suspended(c.sched, step))
  {
    var t := Suspended(c.sched, step);
    SuspendedKeeps(c.sched, step);
    ElsewhereMoves(c, step, t);
    hide Next, Suspended, MemoryOk, QueueOk, InOrder, CordsOk, Inv;
    OthersMoved(c, t);
    SchedOnly(c, t);
  }

  lemma ElsewhereMoves(c: Chan, step: Step, t: State)
    requires ChanInv(c) && Possible(c, Other(step))
    requires t == if Switches(step) then Suspended(c.sched, step) else Next(c.sched, step)
    ensures MovesOthers(c, t)
  {
    if step.Add? {
      NextIdIsCount(c.sched);
    }
  }

  // ---------------------------------------------------------------------
  // Calls on the channel
  // ---------------------------------------------------------------------

  lemma QueueKeeps(c: Chan, v: nat, send: bool)
    requires ChanInv(c) && c.sched.exec.Running? && !c.gone
    requires if send then !Receiving(c) && !c.closed else !Sending(c) && !(c.closed && c.queue == [])
    ensures AtSwitch(Queue(c, v, send)) && ChanInv(Enqueue(c, v, send))
  {
    var d, s := Queue(c, v, send), c.sched;
    var me := s.exec.cord.(at := WaitPoint(c.id, c.top, send));
    SuspendCounted(s, me, s.(blocked := s.blocked + [me]));
    QueueMemory(c, v, send);
    QueueCords(c, v, send);
    QueueOrder(c, v, send);
    SwitchKeeps(d);
  }

  lemma QueueMemory(c: Chan, v: nat, send: bool)
    requires MemoryOk(c) && QueueOk(c) && c.sched.exec.Running? && !c.gone
    requires if send then !Receiving(c) && !c.closed else !Sending(c) && !(c.closed && c.queue == [])
    ensures MemoryOk(Queue(c, v, send)) && QueueOk(Queue(c, v, send))
  {
  }

  lemma QueueOrder(c: Chan, v: nat, send: bool)
    requires MemoryOk(c) && QueueOk(c) && InOrder(c) && c.sched.exec.Running?
    requires if send then !Receiving(c) else !Sending(c)
    ensures InOrder(Queue(c, v, send))
  {
    hide Queue, TakenInOrder, OutcomesOk, Unmatched;
    QueueTaken(c, v, send);
    QueueUnmatched(c, v, send);
  }

  lemma QueueTaken(c: Chan, v: nat, send: bool)
    requires TakenInOrder(c) && OutcomesOk(c) && c.sched.exec.Running?
    ensures TakenInOrder(Queue(c, v, send)) && OutcomesOk(Queue(c, v, send))
  {
  }

  lemma QueueUnmatched(c: Chan, v: nat, send: bool)
    requires MemoryOk(c) && QueueOk(c) && Unmatched(c) && c.sched.exec.Running?
    requires if send then !Receiving(c) else !Sending(c)
    ensures Unmatched(Queue(c, v, send))
  {
  }

  lemma QueueCords(c: Chan, v: nat, send: bool)
    requires ChanInv(c) && c.sched.exec.Running?
    ensures CordsOk(Queue(c, v, send))
  {
    var d, s := Queue(c, v, send), c.sched;
    Alone(s, s.runable);
    Alone(s, s.blocked);
    assert Places(s, s.exec.cord.id) <= 1 && s.exec.cord.id < s.count;
    hide Inv, Counted, TakenInOrder, Unmatched;
    forall k | k in d.sched.runable ensures RunOk(d, k) {
      assert RunOk(c, k);
    }
    forall k | k in d.sched.blocked ensures BlockOk(d, k) {
      if k in s.blocked {
        assert BlockOk(c, k);
      }
    }
  }

  lemma SkipKeeps(c: Chan)
    requires ChanInv(c) && Receiving(c) && !FirstWaits(c)
    ensures ChanInv(Skip(c))
  {
    var d := Skip(c);
    SkipOrder(c);
    hide TakenInOrder, OutcomesOk, InOrder, Inv;
    forall k | k in d.sched.runable ensures RunOk(d, k) {
      assert RunOk(c, k);
    }
    forall k | k in d.sched.blocked ensures BlockOk(d, k) {
      assert BlockOk(c, k);
      assert k.id != c.elts[c.queue[0]].cord by {
        var i :| 0 <= i < |c.sched.blocked| && c.sched.blocked[i] == k;
      }
    }
  }

  lemma SkipOrder(c: Chan)
    requires MemoryOk(c) && QueueOk(c) && InOrder(c) && Receiving(c)
    ensures InOrder(Skip(c)) && MemoryOk(Skip(c)) && QueueOk(Skip(c))
  {
    assert MemoryOk(Skip(c)) && QueueOk(Skip(c)) by {
      hide InOrder;
    }
    hide MemoryOk;
  }

  lemma HandKeeps(c: Chan, v: nat)
    requires ChanInv(c) && Receiving(c) && FirstWaits(c) && c.sched.exec.Running?
    ensures ChanInv(Hand(c, v))
  {
    WakeKeeps(c.sched, c.elts[c.queue[0]].cord, 1);
    HandOrder(c, v);
    HandCords(c, v);
  }

  lemma HandOrder(c: Chan, v: nat)
    requires MemoryOk(c) && QueueOk(c) && InOrder(c) && Receiving(c)
    ensures InOrder(Hand(c, v)) && MemoryOk(Hand(c, v)) && QueueOk(Hand(c, v))
  {
    hide MemoryOk, QueueOk, TakenInOrder, Unmatched, OutcomesOk, Hand;
    HandMemory(c, v);
    HandTaken(c, v);
    HandUnmatched(c, v);
  }

  lemma HandMemory(c: Chan, v: nat)
    requires MemoryOk(c) && QueueOk(c) && Receiving(c)
    ensures MemoryOk(Hand(c, v)) && QueueOk(Hand(c, v))
  {
    hide Wake;
  }

  lemma HandTaken(c: Chan, v: nat)
    requires QueueOk(c) && InOrder(c) && MemoryOk(c) && Receiving(c)
    ensures TakenInOrder(Hand(c, v)) && OutcomesOk(Hand(c, v))
  {
    hide Wake;
  }

  lemma HandUnmatched(c: Chan, v: nat)
    requires QueueOk(c) && InOrder(c) && MemoryOk(c) && Receiving(c)
    ensures Unmatched(Hand(c, v))
  {
    hide Wake, TakenInOrder, OutcomesOk;
  }

  lemma HandCords(c: Chan, v: nat)
    requires ChanInv(c) && Receiving(c) && FirstWaits(c)
    ensures CordsOk(Hand(c, v))
  {
    var d, a := Hand(c, v), c.queue[0];
    var id := c.elts[a].cord;
    WakeSets(c.sched, id, 1);
    hide Wake, Inv, TakenInOrder, OutcomesOk;
    assert c.sched.blocked[Find(c.sched.blocked, id)] in c.sched.blocked;
    forall k | k in d.sched.runable ensures RunOk(d, k) {
      if k in c.sched.runable {
        assert RunOk(c, k);
      }
    }
    forall k | k in d.sched.blocked ensures BlockOk(d, k) {
      assert BlockOk(c, k);
    }
  }

  lemma TakeKeeps(c: Chan)
    requires ChanInv(c) && Sending(c) && c.sched.exec.Running?
    ensures ChanInv(Take(c))
  {
    WakeKeeps(c.sched, c.elts[c.queue[0]].cord, 0);
    TakeOrder(c);
    TakeCords(c);
  }

  lemma TakeOrder(c: Chan)
    requires MemoryOk(c) && QueueOk(c) && InOrder(c) && Sending(c)
    ensures InOrder(Take(c)) && MemoryOk(Take(c)) && QueueOk(Take(c))
  {
    hide Wake;
    assert MemoryOk(Take(c)) && QueueOk(Take(c)) by {
      hide InOrder;
    }
    hide MemoryOk;
  }

  lemma TakeCords(c: Chan)
    requires ChanInv(c) && Sending(c)
    ensures CordsOk(Take(c))
  {
    var d, a := Take(c), c.queue[0];
    var id := c.elts[a].cord;
    WakeSets(c.sched, id, 0);
    hide Wake, Inv, TakenInOrder, OutcomesOk;
    forall k | k in d.sched.runable ensures RunOk(d, k) {
      if k in c.sched.runable {
        assert RunOk(c, k);
      }
    }
    forall k | k in d.sched.blocked ensures BlockOk(d, k) {
      assert BlockOk(c, k);
    }
  }

  /** Where the cords are after the receivers were woken. */
  lemma {:induction false} WakeAllSets(s: State, elts: map<nat, Elt>, q: seq<nat>)
    requires Inv(s) && s.exec.Running?
    requires forall i :: 0 <= i < |q| ==> q[i] in elts
    ensures var t := WakeAll(s, elts, q);
            && Inv(t) && t.exec == s.exec && t.count == s.count
            && (forall k :: k in t.blocked ==> k in s.blocked && forall i :: 0 <= i < |q| ==> elts[q[i]].cord != k.id)
            && (forall k :: k in t.runable ==>
                  k in s.runable || (k.val == 0 && exists b :: b in s.blocked && k == b.(val := 0)))
            && (forall k :: k in s.runable ==> k in t.runable)
            && (forall i, b :: 0 <= i < |q| && b in s.blocked && b.id == elts[q[i]].cord ==> b.(val := 0) in t.runable)
    decreases |q|
  {
    if q != [] {
      var id := elts[q[0]].cord;
      WakeKeeps(s, id, 0);
      WakeSets(s, id, 0);
      hide Wake, Inv;
      var u := Wake(s, id, 0);
      WakeAllSets(u, elts, q[1..]);
      forall i, b | 0 <= i < |q| && b in s.blocked && b.id == elts[q[i]].cord
        ensures b.(val := 0) in WakeAll(s, elts, q).runable
      {
        if b.id == id {
          assert b.(val := 0) in u.runable;
        } else {
          assert b in u.blocked && elts[q[1..][i - 1]].cord == b.id;
        }
      }
    }
  }

  lemma CloseKeeps(c: Chan)
    requires ChanInv(c) && c.sched.exec.Running? && !c.gone
    ensures ChanInv(Close(c))
  {
    if Receiving(c) {
      CloseWakes(c);
      CloseOrder(c);
      CloseCords(c);
    } else {
      CloseMarks(c);
    }
  }

  lemma CloseWakes(c: Chan)
    requires ChanInv(c) && Receiving(c) && c.sched.exec.Running?
    ensures Inv(Close(c).sched)
  {
    WakeAllSets(c.sched, c.elts, c.queue);
  }

  lemma CloseMarks(c: Chan)
    requires ChanInv(c) && !Receiving(c)
    ensures ChanInv(Close(c))
  {
    hide Inv, MemoryOk, InOrder;
    var d := Close(c);
    MarkKeepsOrder(c, d);
    forall k | k in d.sched.runable ensures RunOk(d, k) {
      assert RunOk(c, k);
    }
    forall k | k in d.sched.blocked ensures BlockOk(d, k) {
      assert BlockOk(c, k);
    }
  }

  lemma MarkKeepsOrder(c: Chan, d: Chan)
    requires MemoryOk(c) && InOrder(c) && d == c.(closed := d.closed, gone := d.gone)
    ensures MemoryOk(d) && InOrder(d)
  {
  }

  lemma CloseOrder(c: Chan)
    requires MemoryOk(c) && QueueOk(c) && InOrder(c) && Receiving(c)
    ensures InOrder(Close(c)) && MemoryOk(Close(c)) && QueueOk(Close(c))
  {
    hide WakeAll;
  }

  lemma CloseCords(c: Chan)
    requires ChanInv(c) && Receiving(c) && c.sched.exec.Running?
    ensures CordsOk(Close(c))
  {
    var d := Close(c);
    WakeAllSets(c.sched, c.elts, c.queue);
    hide Inv, Wake, WakeAll, TakenInOrder, OutcomesOk;
    forall k | k in d.sched.runable ensures RunOk(d, k) {
      if k in c.sched.runable {
        assert RunOk(c, k);
      } else {
        var b :| b in c.sched.blocked && k == b.(val := 0);
        assert BlockOk(c, b);
      }
    }
    forall k | k in d.sched.blocked ensures BlockOk(d, k) {
      assert BlockOk(c, k);
    }
  }

  lemma {:induction false} SendKeeps(c: Chan, v: nat)
    requires ChanInv(c) && c.sched.exec.Running? && !c.gone && !c.closed
    ensures ChanInv(Send(c, v))
    decreases |c.queue|
  {
    hide MemoryOk, QueueOk, CordsOk, InOrder, Inv;
    if Receiving(c) {
      if FirstWaits(c) {
        HandKeeps(c, v);
      } else {
        SkipKeeps(c);
        SendKeeps(Skip(c), v);
      }
    } else {
      QueueKeeps(c, v, true);
    }
  }

  lemma RecvKeeps(c: Chan)
    requires ChanInv(c) && c.sched.exec.Running? && !c.gone
    ensures ChanInv(Recv(c))
  {
    if c.closed && c.queue == [] {
      RefusedKeeps(c);
    } else if Sending(c) {
      TakeKeeps(c);
    } else {
      QueueKeeps(c, 0, false);
    }
  }

  lemma RefusedKeeps(c: Chan)
    requires ChanInv(c) && c.closed && c.queue == []
    ensures ChanInv(c.(fates := c.fates + [Shut], outcomes := c.outcomes[|c.fates| := NotOk]))
  {
    var d := c.(fates := c.fates + [Shut], outcomes := c.outcomes[|c.fates| := NotOk]);
    forall k | k in d.sched.runable ensures RunOk(d, k) {
      assert RunOk(c, k);
    }
    forall k | k in d.sched.blocked ensures BlockOk(d, k) {
      assert BlockOk(c, k);
    }
  }

  /** Every call and every step of the other cords keeps the invariant. */
  lemma PerformKeeps(c: Chan, call: Call)
    requires ChanInv(c) && Possible(c, call)
    ensures ChanInv(Perform(c, call))
  {
    match call
    case Sent(v) => if !c.closed { SendKeeps(c, v); }
    case Received => RecvKeeps(c);
    case Closed => CloseKeeps(c);
    case Other(step) => ElsewhereKeeps(c, step);
  }

  lemma {:induction false} CallsKeep(c: Chan, calls: seq<Call>)
    requires ChanInv(c) && Runs(c, calls)
    ensures ChanInv(AfterCalls(c, calls))
    decreases |calls|
  {
    if calls != [] {
      PerformKeeps(c, calls[0]);
      CallsKeep(Perform(c, calls[0]), calls[1..]);
    }
  }
}
