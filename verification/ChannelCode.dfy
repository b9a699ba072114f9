/** ch.c over a braid: each operation is the step of the state machine in
    `Channels` that it stands for. */
module ChannelCode {
  import opened HashTables
  import opened CordSets
  import opened Sched
  import opened Braids
  import opened Channels
  import ChannelRuns

  /** A `struct elt` in memory; the pointer `next` is an address, 0 for none. */
  datatype Node = Node(c: nat, val: nat, next: nat, send: bool)

  type Memory = map<nat, Node>

  /** The elements without their links. */
  ghost function View(mem: Memory): (r: map<nat, Elt>)
    ensures r.Keys == mem.Keys
    ensures forall a :: a in mem ==> r[a] == Elt(mem[a].c, mem[a].val, mem[a].send)
  {
    map a | a in mem :: Elt(mem[a].c, mem[a].val, mem[a].send)
  }

  /** The address at place `i`, 0 behind the end. */
  function Nth(q: seq<nat>, i: nat): nat {
    if i < |q| then q[i] else 0
  }

  /** The queue is linked from `head` to `tail`. */
  ghost predicate Linked(mem: Memory, head: nat, tail: nat, q: seq<nat>) {
    LinkedFacts(mem, head, tail, q) == true
  }

  ghost predicate LinkedFacts(mem: Memory, head: nat, tail: nat, q: seq<nat>) {
    && head == Nth(q, 0)
    && tail == (if q == [] then 0 else q[|q| - 1])
    && (forall i :: 0 <= i < |q| ==> q[i] != 0 && q[i] in mem && mem[q[i]].next == Nth(q, i + 1))
  }

  lemma LinkedPop(mem: Memory, head: nat, tail: nat, q: seq<nat>)
    requires Linked(mem, head, tail, q) && q != []
    ensures Linked(mem, mem[head].next, if mem[head].next == 0 then 0 else tail, q[1..])
  {
    forall i | 0 <= i < |q[1..]| ensures mem[q[1..][i]].next == Nth(q[1..], i + 1) {
      assert mem[q[i + 1]].next == Nth(q, i + 2);
    }
  }

  /** A change of an element that is not in the queue. */
  lemma LinkedOff(mem: Memory, mem': Memory, head: nat, tail: nat, q: seq<nat>, a: nat)
    requires Linked(mem, head, tail, q) && a !in q
    requires mem' - {a} == mem - {a}
    ensures Linked(mem', head, tail, q)
  {
    forall i | 0 <= i < |q| ensures q[i] in mem' && mem'[q[i]] == mem[q[i]] {
      assert q[i] in mem - {a} && (mem - {a})[q[i]] == mem[q[i]];
      assert q[i] in mem' - {a} && (mem' - {a})[q[i]] == mem'[q[i]];
    }
  }

  lemma LinkedPush(mem: Memory, head: nat, tail: nat, q: seq<nat>, a: nat)
    requires Linked(mem, head, tail, q) && a != 0 && a in mem && mem[a].next == 0 && a !in q
    requires forall i, j :: 0 <= i < j < |q| ==> q[i] != q[j]
    ensures tail != 0 ==> tail in mem && Linked(mem[tail := mem[tail].(next := a)], head, a, q + [a])
    ensures tail == 0 ==> Linked(mem, a, a, q + [a])
  {
  }

  lemma ViewRemove(mem: Memory, a: nat)
    ensures View(mem - {a}) == View(mem) - {a}
  {
  }

  lemma ViewLink(mem: Memory, a: nat, next: nat)
    requires a in mem
    ensures View(mem[a := mem[a].(next := next)]) == View(mem)
  {
  }

  lemma ViewSet(mem: Memory, a: nat, n: Node)
    ensures View(mem[a := n]) == View(mem)[a := Elt(n.c, n.val, n.send)]
  {
  }

  /** What a step leaves as it was, beside the scheduler's sets. */
  ghost predicate SameChannel(c: Chan, d: Chan) {
    d.id == c.id && d.closed == c.closed && d.gone == c.gone && d.top == c.top && d.sched.exec == c.sched.exec
  }

  lemma SkipIs(c: Chan, v: nat, mem: Memory)
    requires ChanInv(c) && Receiving(c) && !FirstWaits(c) && View(mem) == c.elts
    ensures var d, a := Skip(c), c.queue[0];
            && ChanInv(d) && SameChannel(c, d) && d.queue == c.queue[1..]
            && View(mem[a := mem[a].(val := v)] - {a}) == d.elts
            && d.sched == Wake(c.sched, c.elts[a].cord, 1)
  {
    var a := c.queue[0];
    SkipKeeps(c);
    assert mem[a := mem[a].(val := v)] - {a} == mem - {a};
    ViewRemove(mem, a);
  }

  lemma HandIs(c: Chan, v: nat, mem: Memory)
    requires ChanInv(c) && Receiving(c) && FirstWaits(c) && View(mem) == c.elts && c.sched.exec.Running?
    ensures var d, a := Hand(c, v), c.queue[0];
            && ChanInv(d) && SameChannel(c, d) && d.queue == c.queue[1..]
            && View(mem[a := mem[a].(val := v)]) == d.elts
            && d.sched == Wake(c.sched, c.elts[a].cord, 1)
  {
    HandKeeps(c, v);
    ViewSet(mem, c.queue[0], mem[c.queue[0]].(val := v));
  }

  /** What the cord that goes on does on the channel. */
  lemma SettleIs(c: Chan, mem: Memory)
    requires AtSwitch(c) && View(mem) == c.elts
    ensures var d, e := Dispatched(c), Settle(Dispatched(c));
            && ChanInv(e) && e.sched == Dispatch(c.sched)
            && e.id == c.id && e.closed == c.closed && e.gone == c.gone && e.queue == c.queue && e.top == c.top
            && if d.sched.exec.Running? && Receives(d.sched.exec.cord.at, c.id) then
                 var a := d.sched.exec.cord.at.why.elt;
                 && a in mem && a !in c.queue && e.elts == View(mem - {a})
                 && Result(d) == Some(if d.sched.exec.cord.val != 0 then Outcome.Value(mem[a].val) else NotOk)
               else e.elts == c.elts && Result(d) == None
  {
    hide ChanInv, AtSwitch, Dispatch, Collect, Reply;
    var d := Dispatched(c);
    SwitchKeeps(c);
    SettleLeaves(d);
    CollectIs(d, mem);
    ReplyLeaves(Collect(d));
  }

  lemma CollectIs(d: Chan, mem: Memory)
    requires View(mem) == d.elts
    requires d.sched.exec.Running? && Receives(d.sched.exec.cord.at, d.id) ==>
               d.sched.exec.cord.at.why.elt in d.elts && d.sched.exec.cord.at.why.elt in d.noOf
    ensures if d.sched.exec.Running? && Receives(d.sched.exec.cord.at, d.id) then
              var a := d.sched.exec.cord.at.why.elt;
              && Collect(d).elts == View(mem - {a})
              && Result(d) == Some(if d.sched.exec.cord.val != 0 then Outcome.Value(mem[a].val) else NotOk)
            else Collect(d).elts == d.elts && Result(d) == None
  {
    if d.sched.exec.Running? && Receives(d.sched.exec.cord.at, d.id) {
      ViewRemove(mem, d.sched.exec.cord.at.why.elt);
    }
  }

  lemma EnqueueIs(c: Chan, v: nat, send: bool, mem: Memory)
    requires ChanInv(c) && c.sched.exec.Running? && !c.gone && View(mem) == c.elts
    requires if send then !Receiving(c) && !c.closed else !Sending(c) && !(c.closed && c.queue == [])
    ensures var d := Queue(c, v, send);
            && AtSwitch(d) && d.id == c.id && d.closed == c.closed && !d.gone && d.top == c.top + 1
            && d.queue == c.queue + [c.top]
            && View(mem[c.top := Node(c.sched.exec.cord.id, if send then v else 0, 0, send)]) == d.elts
            && Dispatch(d.sched) == Next(c.sched, Step.Block(if send then OnSend(c.id, c.top) else OnRecv(c.id, c.top)))
  {
    QueueKeeps(c, v, send);
    SuspendedKeeps(c.sched, Step.Block(if send then OnSend(c.id, c.top) else OnRecv(c.id, c.top)));
    ViewSet(mem, c.top, Node(c.sched.exec.cord.id, if send then v else 0, 0, send));
  }

  lemma OpenIs(b: Braid, id: nat)
    requires b.Valid()
    requires forall k :: k in b.Abs().runable || k in b.Abs().blocked ==> !OnChannel(k.at, id)
    ensures ChanInv(Open(id, b.Abs())) && View(map[]) == map[]
  {
    hide Braid.Valid, Braid.Abs, Braid.Shape, Braid.Sound, Inv, ChanInv;
    b.ValidMeans();
    OpenInv(id, b.Abs());
  }

  lemma SkipShorter(c: Chan)
    ensures c.queue != [] ==> |Skip(c).queue| < |c.queue| && Skip(c).gone == c.gone
  {
  }

  lemma TakeIs(c: Chan, mem: Memory)
    requires ChanInv(c) && Sending(c) && View(mem) == c.elts && c.sched.exec.Running?
    ensures var d, a := Take(c), c.queue[0];
            && ChanInv(d) && SameChannel(c, d) && d.queue == c.queue[1..]
            && View(mem - {a}) == d.elts
            && d.sched == Wake(c.sched, c.elts[a].cord, 0)
  {
    TakeKeeps(c);
    ViewRemove(mem, c.queue[0]);
  }

  lemma RefusedIs(c: Chan)
    requires ChanInv(c) && c.closed && c.queue == [] && c.sched.exec.Running?
    ensures var d := Channels.Recv(c);
            && ChanInv(d) && SameChannel(c, d) && d.queue == c.queue && d.elts == c.elts && d.sched == c.sched
  {
    RefusedKeeps(c);
  }

  lemma CloseIs(c: Chan)
    requires ChanInv(c) && c.sched.exec.Running? && !c.gone
    ensures ChanInv(Channels.Close(c))
  {
    CloseKeeps(c);
  }

  lemma WakeSame(s: State, id: nat, val: nat)
    ensures Wake(s, id, val).exec == s.exec
  {
  }

  lemma ClosesIs(c: Chan)
    requires ChanInv(c) && c.sched.exec.Running? && !c.gone
    ensures var t := Channels.Close(c);
            (t.closed <==> c.closed || c.queue != []) && (t.gone <==> !Sending(c))
  {
    ChannelRuns.CloseIs(c);
    assert QueueOk(c);
  }

  lemma QueueIs(c: Chan)
    requires ChanInv(c)
    ensures forall i :: 0 <= i < |c.queue| ==> c.queue[i] in c.elts
    ensures forall i, j :: 0 <= i < j < |c.queue| ==> c.queue[i] != c.queue[j]
    ensures c.queue != [] ==> c.queue[0] !in c.queue[1..]
    ensures c.top !in c.elts && c.top !in c.queue
  {
    assert QueueOk(c) && MemoryOk(c);
  }

  /** Only the last of the steps may switch to another cord. */
  predicate OnlyLastSwitches(steps: seq<Step>) {
    forall i :: 0 <= i < |steps| - 1 ==> !Switches(steps[i])
  }

  /** Before the switch that the last of other cords' steps makes. */
  ghost function BeforeSwitch(c: Chan, steps: seq<Step>): Chan
    requires steps != [] && Switches(steps[|steps| - 1]) && Runs(c, AsCalls(steps))
    decreases |steps|
  {
    if |steps| == 1 then c.(sched := Suspended(c.sched, steps[0]))
    else
      (assert AsCalls(steps)[1..] == AsCalls(steps[1..]);
       BeforeSwitch(Perform(c, Call.Other(steps[0])), steps[1..]))
  }

  /** The last step switches: the cord that goes on does its part on the channel. */
  lemma {:induction false} SwitchedElsewhere(c: Chan, steps: seq<Step>)
    requires ChanInv(c) && steps != [] && Runs(c, AsCalls(steps))
    requires OnlyLastSwitches(steps) && Switches(steps[|steps| - 1])
    ensures var m := BeforeSwitch(c, steps);
            && AtSwitch(m) && m == c.(sched := m.sched)
            && Settle(Dispatched(m)) == AfterCalls(c, AsCalls(steps))
            && Dispatch(m.sched) == AfterCalls(c, AsCalls(steps)).sched
    decreases |steps|
  {
    hide ChanInv, AtSwitch, Possible, Next, Suspended, Dispatch;
    var step := steps[0];
    assert AsCalls(steps)[0] == Call.Other(step) && AsCalls(steps)[1..] == AsCalls(steps[1..]);
    if |steps| == 1 {
      ElsewhereSuspends(c, step);
    } else {
      ElsewhereKeeps(c, step);
      SwitchedElsewhere(Perform(c, Call.Other(step)), steps[1..]);
    }
  }

  /** No step switches: the channel is as it was. */
  lemma {:induction false} StayedElsewhere(c: Chan, steps: seq<Step>)
    requires Runs(c, AsCalls(steps)) && forall i :: 0 <= i < |steps| ==> !Switches(steps[i])
    ensures AfterCalls(c, AsCalls(steps)) == c.(sched := AfterCalls(c, AsCalls(steps)).sched)
    decreases |steps|
  {
    hide Next, Possible;
    if steps != [] {
      assert AsCalls(steps)[0] == Call.Other(steps[0]) && AsCalls(steps)[1..] == AsCalls(steps[1..]);
      StayedElsewhere(Perform(c, Call.Other(steps[0])), steps[1..]);
    }
  }

  class Channel {
    const b: Braid
    /** The address of the channel. */
    const id: nat
    var closed: bool
    var head: nat
    var tail: nat
    /** The elements in memory, and the next address of the arena. */
    var mem: Memory
    var top: nat

    /** The state of the machine, and its history. */
    ghost var spec: Chan

    ghost predicate Stores(c: Chan)
      reads this
    {
      StoresFacts(c) == true
    }

    ghost predicate StoresFacts(c: Chan)
      reads this
    {
      && id == c.id && closed == c.closed && top == c.top && top > 0 && View(mem) == c.elts
      && (!c.gone ==> Linked(mem, head, tail, c.queue))
    }

    ghost predicate Valid()
      reads this, b, b.pool, b.sets, b.sets.Objs, b.sets.Elts
    {
      ValidFacts() == true
    }

    ghost predicate ValidFacts()
      reads this, b, b.pool, b.sets, b.sets.Objs, b.sets.Elts
    {
      && this !in b.sets.Objs
      && b.Valid() && spec.sched == b.Abs()
      && Stores(spec) && ChanInv(spec)
    }

    /** chopen */
    constructor (b: Braid, id: nat)
      requires b.Valid()
      requires forall k :: k in b.Abs().runable || k in b.Abs().blocked ==> !OnChannel(k.at, id)
      ensures Valid() && this.b == b && this.id == id && spec == Open(id, b.Abs())
    {
      hide Braid.Valid, Braid.Abs, ChanInv, Inv;
      OpenIs(b, id);
      this.b, this.id, closed, head, tail, mem, top := b, id, false, 0, 0, map[], 1;
      spec := Open(id, b.Abs());
    }

    /** elt_pop */
    method EltPop() returns (e: nat)
      requires !spec.gone && Linked(mem, head, tail, spec.queue) && spec.queue != []
      modifies this`head, this`tail
      ensures e == spec.queue[0] && Linked(mem, head, tail, spec.queue[1..])
    {
      LinkedPop(mem, head, tail, spec.queue);
      e := head;
      head := mem[e].next;
      if head == 0 {
        tail := 0;
      }
    }

    /** elt_append */
    method EltAppend(e: nat)
      requires Linked(mem, head, tail, spec.queue) && e != 0 && e in mem && mem[e].next == 0 && e !in spec.queue
      requires forall i, j :: 0 <= i < j < |spec.queue| ==> spec.queue[i] != spec.queue[j]
      modifies this`head, this`tail, this`mem
      ensures Linked(mem, head, tail, spec.queue + [e]) && View(mem) == View(old(mem))
    {
      LinkedPush(mem, head, tail, spec.queue, e);
      if tail != 0 {
        ViewLink(mem, tail, e);
        mem := mem[tail := mem[tail].(next := e)];
      } else {
        head := e;
      }
      tail := e;
    }

    /** The body of the retry loop in chsend. */
    method HandFirst(v: nat) returns (ret: int)
      requires Valid() && Receiving(spec) && !spec.gone && spec.sched.exec.Running?
      modifies this, b, b.sets.Objs, b.sets.Elts
      ensures Valid() && fresh(b.sets.Objs - old(b.sets.Objs)) && b.sets.Elts == old(b.sets.Elts)
      ensures spec.sched.exec.Running? && !spec.gone && spec.closed == old(spec).closed
      ensures ret == 0 <==> FirstWaits(old(spec))
      ensures spec == if ret == 0 then Hand(old(spec), v) else Skip(old(spec))
    {
      hide Braid.Valid, Braid.Abs, ChanInv, Linked, IsBlocked, Wake, Skip, Hand;
      ghost var c, was := spec, mem;
      QueueIs(c);
      ExecIs();
      var e := EltPop();
      mem := mem[e := mem[e].(val := v)];
      ret := b.Unblock(mem[e].c, 1);
      if ret != 0 {
        mem := mem - {e};
        spec := Skip(c);
        SkipIs(c, v, was);
      } else {
        spec := Hand(c, v);
        HandIs(c, v, was);
      }
      LinkedOff(was, mem, head, tail, c.queue[1..], e);
    }

    /** After a switch: the end of chrecv in the cord that goes on. `mid` is the
        state before the switch. */
    method Resume(ghost mid: Chan) returns (out: Option<Outcome>)
      requires this !in b.sets.Objs && b.Valid() && b.Abs() == Dispatch(mid.sched)
      requires Stores(mid) && AtSwitch(mid)
      modifies this
      ensures Valid() && spec == Settle(Dispatched(mid)) && out == Result(Dispatched(mid))
    {
      hide Braid.Valid, Braid.Abs, ChanInv, Linked, Dispatch, AtSwitch, Settle, Result;
      SettleIs(mid, mem);
      ExecOf(mid);
      spec := Settle(Dispatched(mid));
      out := None;
      if b.ctx == InCord {
        var k := b.cords[b.curr.key];
        if Receives(k.at, id) {
          var e := k.at.why.elt;
          out := Some(if k.val != 0 then Value(mem[e].val) else NotOk);
          if !mid.gone {
            LinkedOff(mem, mem - {e}, head, tail, mid.queue, e);
          }
          mem := mem - {e};
        }
      }
    }

    /** Other cords did `steps` to the braid; if they switched to another cord,
        that cord returns from its chrecv on this channel, if it was in one. */
    method Elsewhere(ghost steps: seq<Step>, switched: bool) returns (out: Option<Outcome>)
      requires this !in b.sets.Objs && b.Valid() && Stores(spec) && ChanInv(spec)
      requires OnlyLastSwitches(steps) && switched == (steps != [] && Switches(steps[|steps| - 1]))
      requires Runs(spec, AsCalls(steps)) && b.Abs() == AfterCalls(spec, AsCalls(steps)).sched
      modifies this
      ensures Valid() && spec == AfterCalls(old(spec), AsCalls(steps))
      ensures out == if switched then Result(Dispatched(BeforeSwitch(old(spec), steps))) else None
    {
      hide Braid.Valid, Braid.Abs, ChanInv, AtSwitch, Linked, Dispatch, BeforeSwitch, Settle, Result;
      out := None;
      if switched {
        SwitchedElsewhere(spec, steps);
        out := Resume(BeforeSwitch(spec, steps));
      } else {
        CallsKeep(spec, AsCalls(steps));
        StayedElsewhere(spec, steps);
        spec := AfterCalls(spec, AsCalls(steps));
      }
    }

    /** What the braid holds of the executing cord. */
    lemma ExecOf(mid: Chan)
      requires b.Valid() && b.Abs() == Dispatch(mid.sched)
      ensures var s := Dispatched(mid).sched;
              && (s.exec.Running? <==> b.ctx == InCord)
              && (b.ctx == InCord ==>
                    && b.curr != null && b.curr.key in b.cords
                    && b.cords[b.curr.key].at == s.exec.cord.at && b.cords[b.curr.key].val == s.exec.cord.val)
    {
      hide CordTables.Valid, MemOk, Inv, Counted, FreedByOthers, Cords, Dispatch;
      b.ExecutionIs();
    }

    /** A new element of the executing cord is queued. */
    method QueueElt(v: nat, send: bool) returns (e: nat)
      requires Valid() && !spec.gone && spec.sched.exec.Running?
      requires if send then !Receiving(spec) && !spec.closed else !Sending(spec) && !(spec.closed && spec.queue == [])
      modifies this`top, this`mem, this`head, this`tail
      ensures e == spec.top && id == spec.id && Stores(Queue(spec, v, send))
    {
      hide Braid.Valid, Braid.Abs, ChanInv, Linked, Queue, AtSwitch, Dispatch;
      ghost var c, was := spec, mem;
      QueueIs(c);
      ExecIs();
      EnqueueIs(c, v, send, mem);
      e := top;
      top := top + 1;
      mem := mem[e := Node(b.curr.key, if send then v else 0, 0, send)];
      LinkedOff(was, mem, head, tail, c.queue, e);
      EltAppend(e);
    }

    /** The end of chsend and of chrecv: an element is queued and the cord
        blocks; then another cord goes on, and may return from its chrecv. */
    method Enqueue(v: nat, send: bool) returns (out: Option<Outcome>)
      requires Valid() && !spec.gone && spec.sched.exec.Running?
      requires if send then !Receiving(spec) && !spec.closed else !Sending(spec) && !(spec.closed && spec.queue == [])
      modifies this, b, b.pool, b.sets.Objs, b.sets.Elts
      ensures Valid() && fresh(b.sets.Objs - old(b.sets.Objs)) && b.sets.Elts == old(b.sets.Elts)
      ensures spec == Channels.Enqueue(old(spec), v, send)
      ensures out == Result(Dispatched(Queue(old(spec), v, send)))
    {
      hide Braid.Valid, Braid.Abs, Channel.Stores;
      hide ChanInv, Linked, Queue, Dispatched, Settle, AtSwitch, Dispatch, Result;
      ghost var c := spec;
      ExecIs();
      StoresIs();
      EnqueueIs(c, v, send, mem);
      var e := QueueElt(v, send);
      b.Block(if send then OnSend(id, e) else OnRecv(id, e));
      out := Resume(Queue(c, v, send));
    }

    /** The retry loop of chsend: dead receivers are freed until one is alive. */
    method HandOver(v: nat) returns (done: bool)
      requires Valid() && !spec.gone && !spec.closed && spec.sched.exec.Running?
      modifies this, b, b.sets.Objs, b.sets.Elts
      ensures Valid() && fresh(b.sets.Objs - old(b.sets.Objs)) && b.sets.Elts == old(b.sets.Elts)
      ensures !spec.gone && !spec.closed && spec.sched.exec.Running?
      ensures SendResult(old(spec)) == if done then Some(0) else None
      ensures done ==> spec == Channels.Send(old(spec), v)
      ensures !done ==> !Receiving(spec) && Channels.Enqueue(spec, v, true) == Channels.Send(old(spec), v)
    {
      hide Braid.Valid, Channel.Valid, FirstWaits, Channels.Enqueue, Hand, Skip;
      ghost var c := spec;
      StoresIs();
      while head != 0 && !mem[head].send
        invariant Valid() && !spec.gone && !spec.closed && spec.sched.exec.Running?
        invariant Channels.Send(spec, v) == Channels.Send(c, v) && SendResult(spec) == SendResult(c)
        invariant head != 0 && head in mem && !mem[head].send <==> Receiving(spec)
        invariant head != 0 ==> head in mem
        invariant fresh(b.sets.Objs - old(b.sets.Objs)) && b.sets.Elts == old(b.sets.Elts)
        decreases |spec.queue|
      {
        SkipShorter(spec);
        var r := HandFirst(v);
        StoresIs();
        if r == 0 {
          return true;
        }
      }
      done := false;
    }

    /** chsend: what it returns, if it does so before the next switch. */
    method Send(v: nat) returns (ret: Option<int>)
      requires Valid() && !spec.gone && spec.sched.exec.Running?
      modifies this, b, b.pool, b.sets.Objs, b.sets.Elts
      ensures Valid() && fresh(b.sets.Objs - old(b.sets.Objs)) && b.sets.Elts == old(b.sets.Elts)
      ensures spec == Perform(old(spec), Sent(v)) && ret == SendResult(old(spec))
      ensures (ret == Some(-1) <==> old(spec).closed) && (ret == Some(0) <==> |spec.takers| > |old(spec).takers|)
      ensures ret == None <==> spec.top == old(spec).top + 1
    {
      hide Braid.Valid, Channel.Valid, Receiving, Channels.Enqueue, Channels.Send;
      SendAnswers(v);
      StoresIs();
      if closed {
        return Some(-1);
      }
      var done := HandOver(v);
      if done {
        return Some(0);
      }
      var _ := Enqueue(v, true);
      ret := None;
    }

    lemma SendAnswers(v: nat)
      requires Valid() && !spec.gone && spec.sched.exec.Running?
      ensures var t, r := Perform(spec, Sent(v)), SendResult(spec);
              && (r == Some(-1) <==> spec.closed) && (r == Some(0) <==> |t.takers| > |spec.takers|)
              && (r == None <==> t.top == spec.top + 1)
    {
      hide Braid.Valid, Braid.Abs, ChanInv;
      ChannelRuns.SendAnswers(spec, v);
    }

    lemma RecvAnswers()
      requires Valid() && !spec.gone && spec.sched.exec.Running?
      ensures var t, r := Perform(spec, Received), RecvResult(spec);
              && |t.fates| == |spec.fates| + 1
              && (r.Some? ==> |spec.fates| in t.outcomes && t.outcomes[|spec.fates|] == r.value)
              && (r == None <==> t.top == spec.top + 1)
    {
      hide Braid.Valid, Braid.Abs, ChanInv;
      ChannelRuns.RecvAnswers(spec);
    }

    /** chrecv, when there is a sender: its value is taken. */
    method TakeFirst() returns (ret: nat)
      requires Valid() && Sending(spec) && !spec.gone && spec.sched.exec.Running?
      modifies this, b, b.sets.Objs, b.sets.Elts
      ensures Valid() && fresh(b.sets.Objs - old(b.sets.Objs)) && b.sets.Elts == old(b.sets.Elts)
      ensures spec == Take(old(spec)) && Some(Value(ret)) == RecvResult(old(spec))
    {
      hide Braid.Valid, Braid.Abs, ChanInv, Linked, IsBlocked, Wake, Take;
      ghost var c, was := spec, mem;
      QueueIs(c);
      ExecIs();
      TakeIs(c, mem);
      StoresIs();
      ret := mem[head].val;
      var e := EltPop();
      var _ := b.Unblock(mem[e].c, 0);
      mem := mem - {e};
      spec := Take(c);
      LinkedOff(was, mem, head, tail, c.queue[1..], e);
    }

    /** A receive from a closed channel that is empty. */
    ghost method Refuse()
      requires Valid() && spec.closed && spec.queue == [] && spec.sched.exec.Running?
      modifies this`spec
      ensures Valid() && spec == Channels.Recv(old(spec))
    {
      hide Braid.Valid, Braid.Abs, ChanInv, Linked, Channels.Recv;
      RefusedIs(spec);
      spec := Channels.Recv(spec);
    }

    /** chrecv: what it returns, if it does so before the next switch. */
    method Recv() returns (ret: Option<Outcome>)
      requires Valid() && !spec.gone && spec.sched.exec.Running?
      modifies this, b, b.pool, b.sets.Objs, b.sets.Elts
      ensures Valid() && fresh(b.sets.Objs - old(b.sets.Objs)) && b.sets.Elts == old(b.sets.Elts)
      ensures spec == Perform(old(spec), Received) && ret == RecvResult(old(spec))
      ensures |spec.fates| == |old(spec).fates| + 1
      ensures ret.Some? ==> |old(spec).fates| in spec.outcomes && spec.outcomes[|old(spec).fates|] == ret.value
      ensures ret == None <==> spec.top == old(spec).top + 1
    {
      hide Braid.Valid, Channel.Valid, Channels.Enqueue, Take;
      RecvAnswers();
      StoresIs();
      if closed && head == 0 {
        Refuse();
        return Some(NotOk);
      }
      if head != 0 && mem[head].send {
        var v := TakeFirst();
        return Some(Value(v));
      }
      var _ := Enqueue(0, false);
      ret := None;
    }

    /** chclose */
    method Close()
      requires Valid() && !spec.gone && spec.sched.exec.Running?
      modifies this, b, b.sets.Objs, b.sets.Elts
      ensures Valid() && fresh(b.sets.Objs - old(b.sets.Objs)) && b.sets.Elts == old(b.sets.Elts)
      ensures spec == Perform(old(spec), Closed)
      ensures spec.closed <==> old(spec).closed || old(spec).queue != []
      ensures spec.gone <==> !Sending(old(spec))
    {
      hide Braid.Valid, Braid.Abs, ChanInv, Linked, WakeAll;
      ghost var c := spec;
      ClosesIs(c);
      StoresIs();
      CloseIs(c);
      if head != 0 {
        closed := true;
        if !mem[head].send {
          WakeReceivers();
        }
      }
      spec := Channels.Close(c);
    }

    /** The loop of chclose. */
    method WakeReceivers()
      requires this !in b.sets.Objs && b.Valid() && spec.sched == b.Abs() && spec.sched.exec.Running?
      requires Linked(mem, head, tail, spec.queue) && View(mem) == spec.elts
      modifies b, b.sets.Objs, b.sets.Elts
      ensures this !in b.sets.Objs && b.Valid()
      ensures fresh(b.sets.Objs - old(b.sets.Objs)) && b.sets.Elts == old(b.sets.Elts)
      ensures b.Abs() == WakeAll(spec.sched, spec.elts, spec.queue)
    {
      hide Braid.Valid, Braid.Abs, Wake;
      ghost var q, i := spec.queue, 0;
      var e := head;
      assert q[0..] == q;
      while e != 0
        invariant i <= |q| && e == Nth(q, i)
        invariant this !in b.sets.Objs && b.Valid() && b.Abs().exec.Running?
        invariant WakeAll(b.Abs(), spec.elts, q[i..]) == WakeAll(spec.sched, spec.elts, q)
        invariant fresh(b.sets.Objs - old(b.sets.Objs)) && b.sets.Elts == old(b.sets.Elts)
        decreases |q| - i
      {
        CordExecutes();
        WakeSame(b.Abs(), mem[e].c, 0);
        var _ := b.Unblock(mem[e].c, 0);
        assert q[i..][1..] == q[i + 1..];
        e := mem[e].next;
        i := i + 1;
      }
    }

    lemma CordExecutes()
      requires b.Valid() && b.Abs().exec.Running?
      ensures b.ctx == InCord
    {
      hide CordTables.Valid, MemOk, Inv, Counted, FreedByOthers, Cords;
    }

    /** What the fields say about the queue. */
    lemma StoresIs()
      requires Valid()
      ensures closed == spec.closed
      ensures !spec.gone ==> (head != 0 <==> spec.queue != []) && (head != 0 ==> head == spec.queue[0] && head in mem)
      ensures !spec.gone && head != 0 ==> (mem[head].send <==> Sending(spec)) && (!mem[head].send <==> Receiving(spec))
      ensures forall i :: 0 <= i < |spec.queue| ==> spec.queue[i] in spec.elts
      ensures spec.closed && spec.queue != [] ==> Sending(spec)
      ensures View(mem) == spec.elts
      ensures !Sending(spec) ==> |spec.takers| == |spec.sends|
    {
      assert QueueOk(spec) && Unmatched(spec);
    }

    /** A cord executes. */
    lemma ExecIs()
      requires Valid()
      ensures spec.sched.exec.Running? <==> b.ctx == InCord
      ensures b.ctx == InCord ==> b.curr != null && b.curr.key == spec.sched.exec.cord.id
      ensures b.ctx == InCord ==> b.curr.key in b.cords
      ensures b.ctx == InCord ==> b.cords[b.curr.key].at == spec.sched.exec.cord.at
      ensures b.ctx == InCord ==> b.cords[b.curr.key].val == spec.sched.exec.cord.val
    {
      hide CordTables.Valid, MemOk, Inv, Counted, FreedByOthers, Cords, ChanInv;
      b.ExecutionIs();
    }
  }
}
