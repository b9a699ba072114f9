/** Channels and a visor that are used over one braid: after an operation of one
    of them, all of them are in order again. */
module SharingCode {
  import opened Sched
  import opened Sharing
  import Braids
  import C = Channels
  import V = Visors
  import opened ChannelCode
  import opened VisorCode

  lemma {:induction false} ConfinedLast(s: State, steps: seq<Step>, mine: Point -> bool)
    requires Confined(s, steps, mine)
    ensures OnlyLastSwitches(steps)
    decreases |steps|
  {
    hide Next, Enabled, StepConfined;
    if steps != [] {
      ConfinedLast(Next(s, steps[0]), steps[1..], mine);
      forall i | 0 <= i < |steps| - 1 ensures !Switches(steps[i]) {
        if i > 0 {
          assert steps[1..][i - 1] == steps[i];
        }
      }
    }
  }

  predicate EndsInSwitch(steps: seq<Step>) {
    steps != [] && Switches(steps[|steps| - 1])
  }

  /** chsend switches to another cord exactly when it does not return before. */
  lemma {:induction false} SendSwitches(c: C.Chan)
    requires !c.closed
    ensures SendSteps(c) != [] && (EndsInSwitch(SendSteps(c)) <==> C.SendResult(c) == None)
    decreases |c.queue|
  {
    if C.Receiving(c) && !C.FirstWaits(c) {
      SendSwitches(C.Skip(c));
    }
  }

  lemma SentSwitches(c: C.Chan, v: nat)
    ensures EndsInSwitch(CallSteps(c, C.Sent(v))) <==> C.SendResult(c) == None
  {
    hide C.SendResult, SendSteps;
    SentIs(c);
    if !c.closed {
      SendSwitches(c);
    }
  }

  lemma SentIs(c: C.Chan)
    ensures c.closed ==> C.SendResult(c) == Some(-1)
  {
  }

  /** What another channel sees of a call. */
  lemma CallBeside(c: C.Chan, call: C.Call, d: C.Chan)
    requires C.ChanInv(c) && C.Possible(c, call) && !call.Other? && d.sched == c.sched && d.id != c.id
    ensures OnlyLastSwitches(CallSteps(c, call)) && C.Runs(d, C.AsCalls(CallSteps(c, call)))
    ensures C.AfterCalls(d, C.AsCalls(CallSteps(c, call))).sched == C.Perform(c, call).sched
  {
    hide C.ChanInv, C.Runs, C.AfterCalls, C.Perform, CallSteps, Confined;
    CallConfined(c, call);
    ConfinedLast(c.sched, CallSteps(c, call), ChannelPoints(c.id));
    ConfinedForChannel(d, CallSteps(c, call), ChannelPoints(c.id));
  }

  /** What the visor sees of it. */
  lemma CallBesideVisor(c: C.Chan, call: C.Call, v: V.Vis)
    requires C.ChanInv(c) && C.Possible(c, call) && !call.Other? && v.sched == c.sched
    requires v.status.Going? && !V.Mine(v)
    ensures V.Runs(v, V.AsActs(CallSteps(c, call)))
    ensures V.AfterActs(v, V.AsActs(CallSteps(c, call))) == v.(sched := C.Perform(c, call).sched)
  {
    hide C.ChanInv, V.Runs, V.AfterActs, C.Perform, CallSteps, Confined;
    CallConfined(c, call);
    ConfinedForVisor(v, CallSteps(c, call), ChannelPoints(c.id));
  }

  /** What a channel sees of the visor's turn. */
  lemma TurnBeside(v: V.Vis, poll: V.Poll, d: C.Chan)
    requires V.VisOk(v) && V.Possible(v, V.Act.Visor(poll)) && d.sched == v.sched
    requires V.Turn(v, poll).status == v.status
    ensures var steps := ActSteps(v, V.Act.Visor(poll));
            && OnlyLastSwitches(steps) && EndsInSwitch(steps) && C.Runs(d, C.AsCalls(steps))
            && C.AfterCalls(d, C.AsCalls(steps)).sched == V.Turn(v, poll).sched
  {
    hide V.VisOk, C.Runs, C.AfterCalls, V.Turn, Confined;
    var steps := ActSteps(v, V.Act.Visor(poll));
    ActConfined(v, V.Act.Visor(poll));
    ConfinedLast(v.sched, steps, VisorPoints());
    ConfinedForChannel(d, steps, VisorPoints());
  }

  lemma ChannelParts(y: Channel)
    requires y.Valid()
    ensures y !in y.b.sets.Objs && y.b.Valid() && y.spec.sched == y.b.Abs()
    ensures y.Stores(y.spec) && C.ChanInv(y.spec) && y.id == y.spec.id
  {
    hide Braids.Braid.Valid, Braids.Braid.Abs, C.ChanInv;
  }

  lemma VisorParts(vis: Visor)
    requires vis.Valid() && vis.spec.status.Going?
    ensures vis.Apart() && vis.b.Valid() && vis.spec.sched == vis.b.Abs()
    ensures vis.Stores(vis.spec) && V.VisOk(vis.spec)
  {
    hide Braids.Braid.Valid, Braids.Braid.Abs, V.VisOk;
  }

  /** chsend on `x`, what it returns if it does so before the next switch, and
      what the cord that goes on returns from a chrecv on `y`, if it was in one. */
  method SendBeside(x: Channel, y: Channel, vis: Visor, v: nat)
    returns (ret: Option<int>, out: Option<C.Outcome>)
    requires x.b == y.b == vis.b && x.id != y.id
    requires x.Valid() && y.Valid() && vis.Valid() && vis.spec.status.Going?
    requires !x.spec.gone && x.spec.sched.exec.Running? && !V.Mine(vis.spec)
    modifies x, y, vis`spec, x.b, x.b.pool, x.b.sets.Objs, x.b.sets.Elts
    ensures x.Valid() && y.Valid() && vis.Valid()
    ensures x.spec == C.Perform(old(x.spec), C.Sent(v)) && ret == C.SendResult(old(x.spec))
    ensures vis.spec == old(vis.spec).(sched := x.spec.sched)
    ensures var steps := CallSteps(old(x.spec), C.Sent(v));
            C.Runs(old(y.spec), C.AsCalls(steps)) && y.spec == C.AfterCalls(old(y.spec), C.AsCalls(steps))
  {
    hide Channel.Valid, Visor.Valid, Braids.Braid.Valid, Braids.Braid.Abs, Channel.Stores, Visor.Stores;
    hide C.ChanInv, V.VisOk, C.Perform, C.Runs, C.AfterCalls, V.Runs, V.AfterActs, CallSteps, C.SendResult;
    ChannelParts(x);
    ChannelParts(y);
    VisorParts(vis);
    ghost var c, steps := x.spec, CallSteps(x.spec, C.Sent(v));
    CallBeside(c, C.Sent(v), y.spec);
    CallBesideVisor(c, C.Sent(v), vis.spec);
    SentSwitches(c, v);
    ret := x.Send(v);
    ChannelParts(x);
    out := y.Elsewhere(steps, ret == None);
    vis.Elsewhere(steps);
  }

  /** The visor's turn, and what the cord that goes on returns from a chrecv on
      `y`, if it was in one. */
  method RunBeside(vis: Visor, y: Channel, poll: V.Poll) returns (out: Option<C.Outcome>)
    requires vis.b == y.b && vis.Valid() && y.Valid() && vis.spec.status.Going?
    requires V.Mine(vis.spec) && (poll.Reported? ==> |poll.revents| == vis.cnt == |vis.spec.entries|)
    requires V.Turn(vis.spec, poll).status.Going?
    modifies vis, vis.cords, vis.pfds, y, y.b, y.b.pool, y.b.sets.Objs, y.b.sets.Elts
    ensures vis.Valid() && y.Valid() && vis.spec == V.Turn(old(vis.spec), poll)
    ensures var steps := ActSteps(old(vis.spec), V.Act.Visor(poll));
            C.Runs(old(y.spec), C.AsCalls(steps)) && y.spec == C.AfterCalls(old(y.spec), C.AsCalls(steps))
  {
    hide Channel.Valid, Visor.Valid, Braids.Braid.Valid, Braids.Braid.Abs, Channel.Stores, Visor.Stores;
    hide C.ChanInv, V.VisOk, C.Runs, C.AfterCalls, ActSteps, V.Turn;
    ChannelParts(y);
    VisorParts(vis);
    ghost var steps := ActSteps(vis.spec, V.Act.Visor(poll));
    TurnBeside(vis.spec, poll, y.spec);
    vis.Run(poll);
    VisorParts(vis);
    out := y.Elsewhere(steps, true);
  }
}
