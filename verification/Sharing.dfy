/** Any number of channels and a visor over one scheduler: what one of them does
    is, for the others, a sequence of steps of other cords. */
module Sharing {
  import opened Sched
  import C = Channels
  import V = Visors

  // ---------------------------------------------------------------------
  // The steps of a call
  // ---------------------------------------------------------------------

  /** chsend of an open channel: a wake-up for each receiver it tries, and a
      block if none is alive. */
  function SendSteps(c: C.Chan): seq<Step>
    decreases |c.queue|
  {
    if C.Receiving(c) then
      [Unblock(c.elts[c.queue[0]].cord, 1)] + if C.FirstWaits(c) then [] else SendSteps(C.Skip(c))
    else [Block(OnSend(c.id, c.top))]
  }

  /** The loop of chclose. */
  function CloseSteps(elts: map<nat, C.Elt>, q: seq<nat>): seq<Step> {
    if q == [] then []
    else if q[0] in elts then [Unblock(elts[q[0]].cord, 0)] + CloseSteps(elts, q[1..])
    else CloseSteps(elts, q[1..])
  }

  function CallSteps(c: C.Chan, call: C.Call): seq<Step> {
    match call
    case Sent(_) => if c.closed then [] else SendSteps(c)
    case Received =>
      if c.closed && c.queue == [] then []
      else if C.Sending(c) then [Unblock(c.elts[c.queue[0]].cord, 0)]
      else [Block(OnRecv(c.id, c.top))]
    case Closed => if C.Receiving(c) then CloseSteps(c.elts, c.queue) else []
    case Other(step) => [step]
  }

  /** The loop of iovisor over the entries. */
  function PassSteps(es: seq<V.Waiter>): seq<Step> {
    if es == [] then []
    else
      var e := es[|es| - 1];
      PassSteps(es[..|es| - 1])
      + if V.Ready(e.pfd) then [Unblock(e.cord, V.AsVal(e.pfd.revents))] else []
  }

  function ActSteps(v: V.Vis, act: V.Act): seq<Step>
    requires V.Possible(v, act)
  {
    match act
    case Visor(poll) =>
      if V.Turn(v, poll).status != v.status then []
      else if v.again then [Yield]
      else if v.entries == [] then [Block(OnPoll)]
      else if poll.TimedOut? then [Yield]
      else PassSteps(V.Polled(v.entries, poll)) + [Yield]
    case Wait(fd, read) =>
      if !V.Access(v).Live? then []
      else (if v.isBlocked then [Unblock(v.cord, 0)] else []) + [Block(OnFd)]
    case Other(step) => [step]
  }

  // ---------------------------------------------------------------------
  // Steps that concern certain cords only
  // ---------------------------------------------------------------------

  /** The step wakes no cord but those that wait at points of `mine`, and blocks
      at such a point, if at all. */
  ghost predicate StepConfined(s: State, step: Step, mine: Point -> bool) {
    match step
    case Block(why) => mine(AfterBlock(why))
    case Unblock(id, _) => forall k :: k in s.blocked && k.id == id ==> mine(k.at)
    case Yield => true
    case _ => false
  }

  /** So do all of the steps; a switch is the last. */
  ghost predicate Confined(s: State, steps: seq<Step>, mine: Point -> bool)
    decreases |steps|
  {
    steps == []
    || (Enabled(s, steps[0]) && StepConfined(s, steps[0], mine) && (Switches(steps[0]) ==> |steps| == 1)
        && Confined(Next(s, steps[0]), steps[1..], mine))
  }

  lemma {:induction false} ConfinedAllowed(s: State, steps: seq<Step>, mine: Point -> bool)
    requires Confined(s, steps, mine)
    ensures Allowed(s, steps)
    decreases |steps|
  {
    if steps != [] {
      ConfinedAllowed(Next(s, steps[0]), steps[1..], mine);
    }
  }

  /** For a channel none of whose cords they concern, such steps are steps of
      other cords. */
  lemma {:induction false} ConfinedForChannel(d: C.Chan, steps: seq<Step>, mine: Point -> bool)
    requires Confined(d.sched, steps, mine) && forall p :: mine(p) ==> !C.OnChannel(p, d.id)
    ensures Allowed(d.sched, steps) && C.Runs(d, C.AsCalls(steps))
    ensures C.AfterCalls(d, C.AsCalls(steps)).sched == After(d.sched, steps)
    decreases |steps|
  {
    ConfinedAllowed(d.sched, steps, mine);
    if steps != [] {
      var e := C.Perform(d, C.Other(steps[0]));
      SettleKeepsSched(d, steps[0]);
      hide Next, C.Settle;
      ConfinedForChannel(e, steps[1..], mine);
      assert C.AsCalls(steps)[1..] == C.AsCalls(steps[1..]);
    }
  }

  lemma SettleKeepsSched(d: C.Chan, step: Step)
    requires Enabled(d.sched, step)
    ensures C.Elsewhere(d, step).sched == Next(d.sched, step) && C.Elsewhere(d, step).id == d.id
  {
    hide Next;
  }

  /** The same for the visor, while another cord executes. */
  lemma {:induction false} ConfinedForVisor(v: V.Vis, steps: seq<Step>, mine: Point -> bool)
    requires v.status.Going? && !V.Mine(v) && Confined(v.sched, steps, mine)
    requires forall p :: mine(p) ==> p != AfterBlock(OnFd) && p != AfterBlock(OnPoll)
    ensures Allowed(v.sched, steps) && V.Runs(v, V.AsActs(steps))
    ensures V.AfterActs(v, V.AsActs(steps)) == v.(sched := After(v.sched, steps))
    decreases |steps|
  {
    ConfinedAllowed(v.sched, steps, mine);
    if steps != [] {
      var w := v.(sched := Next(v.sched, steps[0]));
      SameExec(v.sched, steps[0], mine);
      hide Next;
      assert V.AsActs(steps)[1..] == V.AsActs(steps[1..]);
      if Switches(steps[0]) {
        assert steps[1..] == [] && V.AsActs(steps)[1..] == [];
      } else {
        ConfinedForVisor(w, steps[1..], mine);
      }
    }
  }

  lemma SameExec(s: State, step: Step, mine: Point -> bool)
    requires Enabled(s, step) && StepConfined(s, step, mine)
    ensures Switches(step) || Next(s, step).exec == s.exec
  {
  }

  predicate NoSwitch(steps: seq<Step>) {
    forall i :: 0 <= i < |steps| ==> !Switches(steps[i])
  }

  lemma {:induction false} ConfinedOn(s: State, steps: seq<Step>, more: seq<Step>, mine: Point -> bool)
    requires Confined(s, steps, mine) && NoSwitch(steps) && Allowed(s, steps)
    requires Confined(After(s, steps), more, mine) && Allowed(After(s, steps), more)
    ensures Confined(s, steps + more, mine) && Allowed(s, steps + more)
    ensures After(s, steps + more) == After(After(s, steps), more)
    decreases |steps|
  {
    hide Next, Enabled, StepConfined;
    if steps == [] {
      assert steps + more == more;
    } else {
      assert (steps + more)[1..] == steps[1..] + more;
      ConfinedOn(Next(s, steps[0]), steps[1..], more, mine);
    }
  }

  lemma NothingConfined(s: State, mine: Point -> bool)
    ensures Confined(s, [], mine) && Allowed(s, []) && After(s, []) == s
  {
  }

  lemma OneStep(s: State, step: Step, mine: Point -> bool)
    requires Enabled(s, step) && StepConfined(s, step, mine)
    ensures Confined(s, [step], mine) && Allowed(s, [step]) && After(s, [step]) == Next(s, step)
  {
    assert [step][1..] == [];
  }

  // ---------------------------------------------------------------------
  // A call concerns the cords that wait on its channel
  // ---------------------------------------------------------------------

  function ChannelPoints(id: nat): Point -> bool {
    (p: Point) => C.OnChannel(p, id)
  }

  /** The wake-ups of a call are of cords that wait on the channel, or of none. */
  lemma FirstConfined(c: C.Chan, val: nat)
    requires C.ChanInv(c) && c.queue != [] && c.sched.exec.Running?
    ensures c.queue[0] in c.elts
    ensures StepConfined(c.sched, Unblock(c.elts[c.queue[0]].cord, val), ChannelPoints(c.id))
  {
    assert C.QueueOk(c) && C.CordsOk(c);
    assert C.WaiterOk(c.sched, c.id, c.queue[0], c.elts[c.queue[0]]);
  }

  lemma EnqueueConfined(c: C.Chan, v: nat, send: bool)
    requires C.ChanInv(c) && c.sched.exec.Running?
    ensures var step := Block(if send then OnSend(c.id, c.top) else OnRecv(c.id, c.top));
            && StepConfined(c.sched, step, ChannelPoints(c.id))
            && Next(c.sched, step) == C.Enqueue(c, v, send).sched
  {
    SuspendedKeeps(c.sched, Block(if send then OnSend(c.id, c.top) else OnRecv(c.id, c.top)));
  }

  /** What the first wake-up of a send leads to. */
  lemma SendWakes(c: C.Chan, v: nat)
    requires C.ChanInv(c) && C.Receiving(c) && c.sched.exec.Running?
    ensures c.queue[0] in c.elts && Enabled(c.sched, Unblock(c.elts[c.queue[0]].cord, 1))
    ensures var t := Next(c.sched, Unblock(c.elts[c.queue[0]].cord, 1));
            if C.FirstWaits(c) then C.Hand(c, v).sched == t
            else C.Skip(c).sched == t && C.Skip(c).sched.exec.Running? && C.Skip(c).id == c.id
                 && |C.Skip(c).queue| < |c.queue|
  {
    assert C.QueueOk(c);
  }

  lemma {:induction false} SendConfined(c: C.Chan, v: nat)
    requires C.ChanInv(c) && c.sched.exec.Running?
    ensures Confined(c.sched, SendSteps(c), ChannelPoints(c.id)) && Allowed(c.sched, SendSteps(c))
    ensures After(c.sched, SendSteps(c)) == C.Send(c, v).sched
    decreases |c.queue|
  {
    hide C.ChanInv, Confined, StepConfined, Allowed, After, Wake, C.Skip, C.Enqueue, C.Queue;
    if C.Receiving(c) {
      var step := Unblock(c.elts[c.queue[0]].cord, 1);
      FirstConfined(c, 1);
      SendWakes(c, v);
      assert [step] + [] == [step];
      OneStep(c.sched, step, ChannelPoints(c.id));
      if !C.FirstWaits(c) {
        C.SkipKeeps(c);
        SendConfined(C.Skip(c), v);
        ConfinedOn(c.sched, [step], SendSteps(C.Skip(c)), ChannelPoints(c.id));
      }
    } else {
      EnqueueConfined(c, v, true);
      OneStep(c.sched, Block(OnSend(c.id, c.top)), ChannelPoints(c.id));
    }
  }

  lemma {:induction false} CloseConfined(s: State, elts: map<nat, C.Elt>, q: seq<nat>, mine: Point -> bool)
    requires Inv(s) && s.exec.Running?
    requires forall i :: 0 <= i < |q| ==> q[i] in elts
    requires forall i, k :: 0 <= i < |q| && k in s.blocked && k.id == elts[q[i]].cord ==> mine(k.at)
    ensures Confined(s, CloseSteps(elts, q), mine) && Allowed(s, CloseSteps(elts, q))
    ensures After(s, CloseSteps(elts, q)) == C.WakeAll(s, elts, q)
    decreases |q|
  {
    if q != [] {
      var id := elts[q[0]].cord;
      WakeKeeps(s, id, 0);
      WakeSets(s, id, 0);
      OneStep(s, Unblock(id, 0), mine);
      assert forall i :: 0 <= i < |q[1..]| ==> q[1..][i] == q[i + 1];
      hide Wake, Inv;
      CloseConfined(Wake(s, id, 0), elts, q[1..], mine);
      ConfinedOn(s, [Unblock(id, 0)], CloseSteps(elts, q[1..]), mine);
    }
  }

  /** What a call does to the scheduler is a sequence of steps that concern the
      cords waiting on its channel only. */
  lemma CallConfined(c: C.Chan, call: C.Call)
    requires C.ChanInv(c) && C.Possible(c, call) && !call.Other?
    ensures Confined(c.sched, CallSteps(c, call), ChannelPoints(c.id)) && Allowed(c.sched, CallSteps(c, call))
    ensures After(c.sched, CallSteps(c, call)) == C.Perform(c, call).sched
  {
    match call
    case Sent(v) => if !c.closed { SendConfined(c, v); }
    case Received =>
      if C.Sending(c) {
        FirstConfined(c, 0);
        OneStep(c.sched, Unblock(c.elts[c.queue[0]].cord, 0), ChannelPoints(c.id));
      } else if !(c.closed && c.queue == []) {
        EnqueueConfined(c, 0, false);
        OneStep(c.sched, Block(OnRecv(c.id, c.top)), ChannelPoints(c.id));
      }
    case Closed =>
      if C.Receiving(c) {
        assert C.QueueOk(c) && C.CordsOk(c);
        forall i, k | 0 <= i < |c.queue| && k in c.sched.blocked && k.id == c.elts[c.queue[i]].cord
          ensures ChannelPoints(c.id)(k.at)
        {
          assert C.WaiterOk(c.sched, c.id, c.queue[i], c.elts[c.queue[i]]);
        }
        CloseConfined(c.sched, c.elts, c.queue, ChannelPoints(c.id));
      }
  }

  // ---------------------------------------------------------------------
  // The visor concerns the cords that wait in fdwait, and itself
  // ---------------------------------------------------------------------

  function VisorPoints(): Point -> bool {
    (p: Point) => p == AfterBlock(OnFd) || p == AfterBlock(OnPoll)
  }

  lemma {:induction false} PassConfined(s: State, es: seq<V.Waiter>, mine: Point -> bool)
    requires Inv(s) && s.exec.Running?
    requires forall i, k :: 0 <= i < |es| && k in s.blocked && k.id == es[i].cord ==> mine(k.at)
    ensures Confined(s, PassSteps(es), mine) && Allowed(s, PassSteps(es)) && NoSwitch(PassSteps(es))
    ensures After(s, PassSteps(es)) == V.WakeReady(s, es)
    decreases |es|
  {
    hide Inv, Wake, V.AsVal, V.Ready, Confined, Allowed, After;
    if es == [] {
      NothingConfined(s, mine);
    } else {
      var n := |es| - 1;
      var e, t := es[n], V.WakeReady(s, es[..n]);
      PassConfined(s, es[..n], mine);
      if V.Ready(e.pfd) {
        V.WakeReadySets(s, es[..n]);
        OneStep(t, Unblock(e.cord, V.AsVal(e.pfd.revents)), mine);
        ConfinedOn(s, PassSteps(es[..n]), [Unblock(e.cord, V.AsVal(e.pfd.revents))], mine);
      } else {
        assert PassSteps(es) == PassSteps(es[..n]);
      }
    }
  }

  lemma TurnConfined(v: V.Vis, poll: V.Poll)
    requires V.VisOk(v) && V.Possible(v, V.Act.Visor(poll)) && !v.again && v.entries != [] && !poll.TimedOut?
    requires V.Turn(v, poll).status == v.status
    ensures var act := V.Act.Visor(poll);
            Confined(v.sched, ActSteps(v, act), VisorPoints()) && Allowed(v.sched, ActSteps(v, act))
            && After(v.sched, ActSteps(v, act)) == V.Turn(v, poll).sched
  {
    var es := V.Polled(v.entries, poll);
    forall i, k | 0 <= i < |es| && k in v.sched.blocked && k.id == es[i].cord ensures VisorPoints()(k.at) {
      assert V.WaiterOk(v.sched, v.entries[i].cord);
    }
    PassConfined(v.sched, es, VisorPoints());
    OneStep(V.WakeReady(v.sched, es), Yield, VisorPoints());
    ConfinedOn(v.sched, PassSteps(es), [Yield], VisorPoints());
  }

  /** What the visor does to the scheduler, and what a wait does, is a sequence of
      steps that concern cords in fdwait and the visor only. */
  lemma ActConfined(v: V.Vis, act: V.Act)
    requires V.VisOk(v) && V.Possible(v, act) && !act.Other?
    ensures Confined(v.sched, ActSteps(v, act), VisorPoints()) && Allowed(v.sched, ActSteps(v, act))
    ensures After(v.sched, ActSteps(v, act)) == V.Do(v, act).sched
  {
    match act
    case Visor(poll) =>
      if V.Turn(v, poll).status != v.status {
        NothingConfined(v.sched, VisorPoints());
      } else if v.again {
        OneStep(v.sched, Yield, VisorPoints());
      } else if v.entries == [] {
        OneStep(v.sched, Block(OnPoll), VisorPoints());
      } else if poll.TimedOut? {
        OneStep(v.sched, Yield, VisorPoints());
      } else {
        TurnConfined(v, poll);
      }
    case Wait(fd, read) => WaitConfined(v, fd, read);
  }

  lemma WaitConfined(v: V.Vis, fd: int, read: bool)
    requires V.VisOk(v) && V.Possible(v, V.Wait(fd, read))
    ensures var steps := ActSteps(v, V.Wait(fd, read));
            && Confined(v.sched, steps, VisorPoints()) && Allowed(v.sched, steps)
            && After(v.sched, steps) == V.FdWait(v, fd, read).sched
  {
    var s, mine := v.sched, VisorPoints();
    if !V.Access(v).Live? {
      NothingConfined(s, mine);
    } else {
      var t := V.Append(v, V.WaitFor(fd, read)).sched;
      OneStep(t, Block(OnFd), mine);
      if v.isBlocked {
        forall k | k in s.blocked && k.id == v.cord ensures mine(k.at) {
          assert V.BlockOk(v, k);
        }
        OneStep(s, Unblock(v.cord, 0), mine);
        ConfinedOn(s, [Unblock(v.cord, 0)], [Block(OnFd)], mine);
      } else {
        assert [] + [Block(OnFd)] == [Block(OnFd)];
      }
    }
  }

  // ---------------------------------------------------------------------
  // Channels and a visor together
  // ---------------------------------------------------------------------

  /** The channels by address, and the visor, over one scheduler. */
  datatype World = World(chans: map<nat, C.Chan>, vis: V.Vis)

  ghost predicate WorldOk(w: World) {
    && w.vis.status.Going? && V.VisOk(w.vis)
    && forall id :: id in w.chans ==> w.chans[id].id == id && w.chans[id].sched == w.vis.sched && C.ChanInv(w.chans[id])
  }

  /** A new channel, a call on a channel by a cord that is not the visor's, a turn
      of the visor or a wait, or any other step of a cord. */
  datatype Move = Opened(id: nat) | Call(id: nat, call: C.Call) | Act(act: V.Act) | Elsewhere(step: Step)

  /** A channel is opened at an address where there was none and no cord waits. A
      step elsewhere uses the interface of neither channels nor visor, and wakes
      no cord that waits in one of them. */
  ghost predicate CanMove(w: World, move: Move) {
    match move
    case Opened(id) =>
      && id !in w.chans && w.vis.sched.exec.Running?
      && forall k :: k in w.vis.sched.runable || k in w.vis.sched.blocked ==> !C.OnChannel(k.at, id)
    case Call(id, call) => id in w.chans && C.Possible(w.chans[id], call) && !call.Other? && !V.Mine(w.vis)
    case Act(act) => V.Possible(w.vis, act) && !act.Other?
    case Elsewhere(step) =>
      V.Possible(w.vis, V.Other(step)) && forall id :: id in w.chans ==> C.Possible(w.chans[id], C.Other(step))
  }

  /** The steps of a move. */
  ghost function MoveSteps(w: World, move: Move): seq<Step>
    requires CanMove(w, move)
  {
    match move
    case Opened(_) => []
    case Call(id, call) => CallSteps(w.chans[id], call)
    case Act(act) => ActSteps(w.vis, act)
    case Elsewhere(step) => [step]
  }

  /** What a channel sees of a move. */
  ghost function SeenBy(w: World, move: Move, id: nat): seq<C.Call>
    requires CanMove(w, move)
  {
    if move.Call? && move.id == id then [move.call] else C.AsCalls(MoveSteps(w, move))
  }

  ghost function SeenByVisor(w: World, move: Move): seq<V.Act>
    requires CanMove(w, move)
  {
    if move.Act? then [move.act] else V.AsActs(MoveSteps(w, move))
  }

  lemma MoveAllowed(w: World, move: Move)
    requires WorldOk(w) && CanMove(w, move)
    ensures Allowed(w.vis.sched, MoveSteps(w, move))
    ensures move.Call? ==> Confined(w.vis.sched, MoveSteps(w, move), ChannelPoints(move.id))
    ensures move.Act? ==> Confined(w.vis.sched, MoveSteps(w, move), VisorPoints())
  {
    match move
    case Opened(_) =>
    case Call(id, call) => CallConfined(w.chans[id], call);
    case Act(act) => ActConfined(w.vis, act);
    case Elsewhere(step) => assert [step][1..] == [];
  }

  /** What one does is possible for the others, and all end with the same
      scheduler. */
  lemma MoveSeen(w: World, move: Move, id: nat)
    requires WorldOk(w) && CanMove(w, move) && id in w.chans
    ensures Allowed(w.vis.sched, MoveSteps(w, move)) && C.Runs(w.chans[id], SeenBy(w, move, id))
    ensures C.AfterCalls(w.chans[id], SeenBy(w, move, id)).sched == After(w.vis.sched, MoveSteps(w, move))
  {
    hide C.ChanInv, V.VisOk;
    var c := w.chans[id];
    MoveAllowed(w, move);
    match move
    case Opened(_) => NothingSeen(c);
    case Call(other, call) =>
      if other == id {
        CallConfined(c, call);
        OneCall(c, call);
      } else {
        ConfinedForChannel(c, MoveSteps(w, move), ChannelPoints(other));
      }
    case Act(_) => ConfinedForChannel(c, MoveSteps(w, move), VisorPoints());
    case Elsewhere(step) =>
      OneCall(c, C.Other(step));
      SettleKeepsSched(c, step);
      assert C.AsCalls([step]) == [C.Other(step)];
      assert [step][1..] == [];
  }

  lemma NothingSeen(c: C.Chan)
    ensures C.AsCalls([]) == [] && C.Runs(c, []) && C.AfterCalls(c, []) == c
  {
  }

  lemma OneCall(c: C.Chan, call: C.Call)
    requires C.Possible(c, call)
    ensures C.Runs(c, [call]) && C.AfterCalls(c, [call]) == C.Perform(c, call)
  {
    assert [call][1..] == [];
  }

  lemma MoveSeenByVisor(w: World, move: Move)
    requires WorldOk(w) && CanMove(w, move)
    ensures Allowed(w.vis.sched, MoveSteps(w, move)) && V.Runs(w.vis, SeenByVisor(w, move))
    ensures V.AfterActs(w.vis, SeenByVisor(w, move)).sched == After(w.vis.sched, MoveSteps(w, move))
  {
    hide C.ChanInv, V.VisOk;
    var v := w.vis;
    MoveAllowed(w, move);
    match move
    case Opened(_) => assert V.AsActs([]) == [];
    case Call(id, call) => ConfinedForVisor(v, MoveSteps(w, move), ChannelPoints(id));
    case Act(act) =>
      ActConfined(v, act);
      OneAct(v, act);
    case Elsewhere(step) =>
      OneAct(v, V.Other(step));
      assert V.AsActs([step]) == [V.Other(step)];
      assert [step][1..] == [];
  }

  lemma OneAct(v: V.Vis, act: V.Act)
    requires V.Possible(v, act)
    ensures V.Runs(v, [act]) && V.AfterActs(v, [act]) == V.Do(v, act)
  {
    assert [act][1..] == [];
  }

  /** A move: each channel, and the visor, sees its own part of it. */
  ghost function Moved(w: World, move: Move): World
    requires WorldOk(w) && CanMove(w, move)
  {
    MoveSeenByVisor(w, move);
    var seen := map id | id in w.chans :: (MoveSeen(w, move, id); C.AfterCalls(w.chans[id], SeenBy(w, move, id)));
    World(if move.Opened? then seen[move.id := C.Open(move.id, w.vis.sched)] else seen,
          V.AfterActs(w.vis, SeenByVisor(w, move)))
  }

  /** All channels and the visor stay in order, whichever of them is used, as
      long as the process goes on. */
  lemma MoveKeeps(w: World, move: Move)
    requires WorldOk(w) && CanMove(w, move) && Moved(w, move).vis.status.Going?
    ensures WorldOk(Moved(w, move))
  {
    hide C.ChanInv, V.VisOk, C.Runs, V.Runs, CanMove, C.AfterCalls, V.AfterActs, SeenBy, SeenByVisor;
    var t := Moved(w, move);
    MoveSeenByVisor(w, move);
    V.ActsKeep(w.vis, SeenByVisor(w, move));
    forall id | id in t.chans
      ensures t.chans[id].id == id && t.chans[id].sched == t.vis.sched && C.ChanInv(t.chans[id])
    {
      if id in w.chans {
        MovedChannel(w, move, id);
        MoveSeen(w, move, id);
        C.CallsKeep(w.chans[id], SeenBy(w, move, id));
        SameId(w.chans[id], SeenBy(w, move, id));
      } else {
        OpenedKeeps(w, move);
      }
    }
  }

  lemma MovedChannel(w: World, move: Move, id: nat)
    requires WorldOk(w) && CanMove(w, move) && id in w.chans
    ensures C.Runs(w.chans[id], SeenBy(w, move, id)) && id in Moved(w, move).chans
    ensures Moved(w, move).chans[id] == C.AfterCalls(w.chans[id], SeenBy(w, move, id))
  {
    hide C.ChanInv, V.VisOk, C.Runs, V.Runs, C.AfterCalls, V.AfterActs, SeenBy, SeenByVisor;
    MoveSeen(w, move, id);
  }

  lemma OpenedKeeps(w: World, move: Move)
    requires WorldOk(w) && CanMove(w, move) && move.Opened?
    ensures C.ChanInv(C.Open(move.id, w.vis.sched)) && MoveSteps(w, move) == []
  {
    C.OpenInv(move.id, w.vis.sched);
  }

  lemma {:induction false} SameId(c: C.Chan, calls: seq<C.Call>)
    requires C.Runs(c, calls)
    ensures C.AfterCalls(c, calls).id == c.id
    decreases |calls|
  {
    hide C.Possible, C.Perform;
    if calls != [] {
      PerformSameId(c, calls[0]);
      SameId(C.Perform(c, calls[0]), calls[1..]);
    }
  }

  lemma PerformSameId(c: C.Chan, call: C.Call)
    requires C.Possible(c, call)
    ensures C.Perform(c, call).id == c.id
  {
    hide C.Settle, C.Queue, C.Send, C.WakeAll, Wake, Next;
    match call
    case Sent(v) => SendSameId(c, v);
    case Received => EnqueueSameId(c, 0, false);
    case Closed =>
    case Other(step) => C.SettleLeaves(c.(sched := Next(c.sched, step)));
  }

  lemma EnqueueSameId(c: C.Chan, v: nat, send: bool)
    requires c.sched.exec.Running?
    ensures C.Enqueue(c, v, send).id == c.id
  {
    hide C.Settle, Dispatch;
    C.SettleLeaves(C.Dispatched(C.Queue(c, v, send)));
  }

  lemma {:induction false} SendSameId(c: C.Chan, v: nat)
    requires c.sched.exec.Running?
    ensures C.Send(c, v).id == c.id
    decreases |c.queue|
  {
    if C.Receiving(c) {
      if !C.FirstWaits(c) {
        SendSameId(C.Skip(c), v);
      }
    } else {
      EnqueueSameId(c, v, true);
    }
  }

  /** The moves of a run, as long as the process goes on. */
  ghost predicate Moves(w: World, moves: seq<Move>)
    requires WorldOk(w)
    decreases |moves|
  {
    moves == []
    || (CanMove(w, moves[0]) && Moved(w, moves[0]).vis.status.Going?
        && (MoveKeeps(w, moves[0]); Moves(Moved(w, moves[0]), moves[1..])))
  }

  ghost function AfterMoves(w: World, moves: seq<Move>): World
    requires WorldOk(w) && Moves(w, moves)
    decreases |moves|
  {
    if moves == [] then w else (MoveKeeps(w, moves[0]); AfterMoves(Moved(w, moves[0]), moves[1..]))
  }

  lemma {:induction false} MovesKeep(w: World, moves: seq<Move>)
    requires WorldOk(w) && Moves(w, moves)
    ensures WorldOk(AfterMoves(w, moves))
    decreases |moves|
  {
    hide WorldOk, Moved, CanMove;
    if moves != [] {
      MoveKeeps(w, moves[0]);
      MovesKeep(Moved(w, moves[0]), moves[1..]);
    }
  }

  /** In any run of channels and a visor over one scheduler, each channel has a
      run of its own: what is true of every run of one channel is true of it. */
  lemma {:induction false} ChannelSeesRun(w: World, moves: seq<Move>, id: nat)
    requires WorldOk(w) && Moves(w, moves) && id in w.chans
    ensures id in AfterMoves(w, moves).chans
    ensures exists calls ::
              C.Runs(w.chans[id], calls) && C.AfterCalls(w.chans[id], calls) == AfterMoves(w, moves).chans[id]
    decreases |moves|
  {
    hide C.ChanInv, V.VisOk, CanMove, SeenBy, WorldOk, Moved;
    if moves == [] {
      assert C.Runs(w.chans[id], []) && C.AfterCalls(w.chans[id], []) == w.chans[id];
    } else {
      var t, seen := Moved(w, moves[0]), SeenBy(w, moves[0], id);
      MoveKeeps(w, moves[0]);
      MovedChannel(w, moves[0], id);
      ChannelSeesRun(t, moves[1..], id);
      var calls :| C.Runs(t.chans[id], calls)
                   && C.AfterCalls(t.chans[id], calls) == AfterMoves(t, moves[1..]).chans[id];
      C.CallsOn(w.chans[id], seen, calls);
    }
  }

  /** So has the visor. */
  lemma {:induction false} VisorSeesRun(w: World, moves: seq<Move>)
    requires WorldOk(w) && Moves(w, moves)
    ensures exists acts :: V.Runs(w.vis, acts) && V.AfterActs(w.vis, acts) == AfterMoves(w, moves).vis
    decreases |moves|
  {
    hide C.ChanInv, V.VisOk, CanMove, SeenByVisor, WorldOk;
    if moves == [] {
      assert V.Runs(w.vis, []) && V.AfterActs(w.vis, []) == w.vis;
    } else {
      var t, seen := Moved(w, moves[0]), SeenByVisor(w, moves[0]);
      MoveKeeps(w, moves[0]);
      MoveSeenByVisor(w, moves[0]);
      VisorSeesRun(t, moves[1..]);
      var acts :| V.Runs(t.vis, acts) && V.AfterActs(t.vis, acts) == AfterMoves(t, moves[1..]).vis;
      V.ActsOn(w.vis, seen, acts);
    }
  }
}
