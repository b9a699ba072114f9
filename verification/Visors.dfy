/** The visor of poll/visor.c, the cord that waits for file descriptors on
    behalf of the others, and fdwait: a state machine over that of the
    scheduler. What `poll` reports is not determined. */
module Visors {
  import opened Sched

  const POLLIN: bv16 := 0x01
  const POLLOUT: bv16 := 0x04
  const POLLERR: bv16 := 0x08
  const POLLHUP: bv16 := 0x10
  const POLLNVAL: bv16 := 0x20
  /** What `poll` reports unasked. */
  const POLLIMPLICIT: bv16 := POLLERR | POLLHUP | POLLNVAL

  /** `struct pollfd` */
  datatype Pollfd = Pollfd(fd: int, events: bv16, revents: bv16)

  /** A waiting cord and what it waits for. */
  datatype Waiter = Waiter(cord: nat, pfd: Pollfd)

  /** Whether the process goes on, was ended by an error, used memory that was
      not its own any more, or reallocated a block of one cord's arena through
      that of another: if the block was the first of its arena and moved, both
      arenas then begin with the wrong one. */
  datatype Status = Going | Exited | Undefined | Mixed

  /** The scheduler; the id of the visor's cord, `ctx->cord`, which is 0 until
      the visor first runs; the waiting cords, how many the arrays have room for,
      and the cord whose arena holds the arrays, if there are any; whether the
      visor is about to block or blocked, and whether it is between its two
      yields. */
  datatype Vis = Vis(sched: State, me: nat, cord: nat, entries: seq<Waiter>, cap: nat, home: Option<nat>,
                     isBlocked: bool, again: bool, status: Status)

  /** What getctx first returns. */
  function NoVisor(s: State, me: nat): Vis {
    Vis(s, me, 0, [], 0, None, false, false, Going)
  }

  /** What a call of `poll` does: it times out, is interrupted, or reports. */
  datatype Poll = TimedOut | Interrupted | Reported(revents: seq<bv16>)

  // ---------------------------------------------------------------------
  // Steps
  // ---------------------------------------------------------------------

  predicate Ready(p: Pollfd) {
    p.revents & (POLLIMPLICIT | p.events) != 0
  }

  function AsVal(revents: bv16): nat {
    revents as nat
  }

  /** The entries as `poll` leaves them. */
  function Polled(es: seq<Waiter>, poll: Poll): (r: seq<Waiter>)
    requires poll.Reported? ==> |poll.revents| == |es|
    ensures |r| == |es|
    ensures forall i :: 0 <= i < |es| ==> r[i].cord == es[i].cord
  {
    match poll
    case TimedOut => seq(|es|, i requires 0 <= i < |es| => es[i].(pfd := es[i].pfd.(revents := 0)))
    case Interrupted => es
    case Reported(revents) =>
      seq(|es|, i requires 0 <= i < |es| => es[i].(pfd := es[i].pfd.(revents := revents[i])))
  }

  /** The entries that are not ready, in order. */
  function Unready(es: seq<Waiter>): seq<Waiter> {
    if es == [] then []
    else Unready(es[..|es| - 1]) + if Ready(es[|es| - 1].pfd) then [] else [es[|es| - 1]]
  }

  /** The ready cords are woken in order, each with its own events. */
  function WakeReady(s: State, es: seq<Waiter>): (t: State)
    ensures t.exec == s.exec && t.count == s.count
  {
    if es == [] then s
    else
      var t, e := WakeReady(s, es[..|es| - 1]), es[|es| - 1];
      if Ready(e.pfd) then Wake(t, e.cord, AsVal(e.pfd.revents)) else t
  }

  /** The pass over the entries. */
  function Pass(v: Vis): Vis {
    v.(sched := WakeReady(v.sched, v.entries), entries := Unready(v.entries))
  }

  predicate Mine(v: Vis) {
    v.sched.exec.Running? && v.sched.exec.cord.id == v.me
  }

  /** What poll_append does with the arrays: it uses memory that is there, finds
      no cord to allocate from, uses arrays that went with their cord, or
      reallocates a block through the arena of another cord. */
  datatype Use = Live | NoCord | Dangling | Foreign

  function Access(v: Vis): Use {
    if |v.entries| + 1 > v.cap then
      if !Present(v.sched, v.cord) then NoCord
      else if v.home.Some? && Destroyed(v.sched, v.home.value) then Dangling
      else if v.home.Some? && v.home.value != v.cord then Foreign
      else Live
    else if v.home.Some? && Destroyed(v.sched, v.home.value) then Dangling
    else Live
  }

  /** The visor runs, from where it was suspended to where it is next. */
  function Turn(v: Vis, poll: Poll): Vis
    requires Mine(v) && (poll.Reported? ==> |poll.revents| == |v.entries|)
  {
    var u := Started(v);
    if u.again then Yielded(u.(again := false))
    else if u.entries == [] then
      u.(isBlocked := true, sched := Next(u.sched, Block(OnPoll)))
    else if u.home.Some? && Destroyed(u.sched, u.home.value) then
      u.(status := Undefined)
    else
      Yielded(Answered(u, poll))
  }

  /** The top of iovisor, where a fresh cord comes in. */
  function Started(v: Vis): (r: Vis)
    requires v.sched.exec.Running?
    ensures r == v.(cord := r.cord)
  {
    if v.sched.exec.cord.at.Entry? then v.(cord := v.me) else v
  }

  /** What the visor makes of the answer of `poll`: before it yields twice if
      nothing happened, a pass over the entries otherwise. */
  function Answered(v: Vis, poll: Poll): (r: Vis)
    requires poll.Reported? ==> |poll.revents| == |v.entries|
    ensures r.sched.exec == v.sched.exec
  {
    var t := v.(entries := Polled(v.entries, poll), again := poll.TimedOut?);
    if poll.TimedOut? then t else Pass(t)
  }

  function Yielded(v: Vis): Vis
    requires v.sched.exec.Running?
  {
    v.(sched := Next(v.sched, Yield))
  }

  /** poll_append by the executing cord, with memory to do it. */
  function Append(v: Vis, pfd: Pollfd): Vis
    requires v.sched.exec.Running?
  {
    Grown(v).(entries := v.entries + [Waiter(v.sched.exec.cord.id, pfd)],
              sched := if v.isBlocked then Wake(v.sched, v.cord, 0) else v.sched,
              isBlocked := false)
  }

  /** The arrays have room for one entry more. */
  function Grown(v: Vis): Vis {
    if |v.entries| + 1 > v.cap then
      v.(cap := if v.cap == 0 then 4 else v.cap * 2, home := if v.home.None? then Some(v.cord) else v.home)
    else v
  }

  function WaitFor(fd: int, read: bool): Pollfd {
    Pollfd(fd, if read then POLLIN else POLLOUT, 0)
  }

  /** fdwait */
  function FdWait(v: Vis, fd: int, read: bool): Vis
    requires v.sched.exec.Running?
  {
    match Access(v)
    case Live =>
      var t := Append(v, WaitFor(fd, read));
      t.(sched := Next(t.sched, Block(OnFd)))
    case NoCord => v.(status := Exited)
    case Dangling => v.(status := Undefined)
    case Foreign => v.(status := Mixed)
  }

  datatype Act = Visor(poll: Poll) | Wait(fd: int, read: bool) | Other(step: Step)

  /** The visor's cord does nothing but run the visor; the others neither wake
      cords that wait in fdwait nor block in their place. */
  predicate Possible(v: Vis, act: Act) {
    v.status.Going? &&
    match act
    case Visor(poll) => Mine(v) && (poll.Reported? ==> |poll.revents| == |v.entries|)
    case Wait(_, _) => v.sched.exec.Running? && !Mine(v)
    case Other(step) =>
      && Enabled(v.sched, step) && !Mine(v)
      && (step.Block? ==> !step.why.OnFd? && !step.why.OnPoll?)
      && (step.Unblock? ==> forall k :: k in v.sched.blocked && k.id == step.id ==> k.at != AfterBlock(OnFd))
  }

  function Do(v: Vis, act: Act): Vis
    requires Possible(v, act)
  {
    match act
    case Visor(poll) => Turn(v, poll)
    case Wait(fd, read) => FdWait(v, fd, read)
    case Other(step) => v.(sched := Next(v.sched, step))
  }

  predicate Runs(v: Vis, acts: seq<Act>)
    decreases |acts|
  {
    acts == [] || (Possible(v, acts[0]) && Runs(Do(v, acts[0]), acts[1..]))
  }

  function AfterActs(v: Vis, acts: seq<Act>): Vis
    requires Runs(v, acts)
    decreases |acts|
  {
    if acts == [] then v else AfterActs(Do(v, acts[0]), acts[1..])
  }

  /** Steps of other cords. */
  function AsActs(steps: seq<Step>): (r: seq<Act>)
    ensures |r| == |steps| && forall i :: 0 <= i < |steps| ==> r[i] == Act.Other(steps[i])
  {
    seq(|steps|, i requires 0 <= i < |steps| => Act.Other(steps[i]))
  }

  lemma {:induction false} ActsOn(v: Vis, acts: seq<Act>, more: seq<Act>)
    requires Runs(v, acts) && Runs(AfterActs(v, acts), more)
    ensures Runs(v, acts + more) && AfterActs(v, acts + more) == AfterActs(AfterActs(v, acts), more)
    decreases |acts|
  {
    hide Possible, Do;
    if acts == [] {
      assert acts + more == more;
    } else {
      ActsOn(Do(v, acts[0]), acts[1..], more);
      assert (acts + more)[1..] == acts[1..] + more;
    }
  }

  // ---------------------------------------------------------------------
  // Invariant
  // ---------------------------------------------------------------------

  ghost predicate EntriesOk(v: Vis) {
    && (forall i, j :: 0 <= i < j < |v.entries| ==> v.entries[i].cord != v.entries[j].cord)
    && (forall i :: 0 <= i < |v.entries| ==> v.entries[i].cord != v.me)
  }

  /** A cord in the visor's list is blocked in fdwait, or dead. */
  ghost predicate WaiterOk(s: State, id: nat) {
    && id < s.count && Executing(s.exec, id) == 0
    && (forall k :: k in s.runable ==> k.id != id)
    && (forall k :: k in s.blocked && k.id == id ==> k.at == AfterBlock(OnFd))
  }

  ghost predicate Listed(v: Vis, id: nat) {
    exists i :: 0 <= i < |v.entries| && v.entries[i].cord == id
  }

  /** A cord blocked in fdwait is in the visor's list; the visor blocks only
      when the list is empty, and says so. */
  ghost predicate BlockOk(v: Vis, k: Cord) {
    && (k.at == AfterBlock(OnFd) ==> Listed(v, k.id))
    && (k.id == v.me ==> v.entries == [] && v.isBlocked && k.at == AfterBlock(OnPoll) && v.cord == v.me)
  }

  ghost predicate WaitersOk(v: Vis) {
    && (forall i :: 0 <= i < |v.entries| ==> WaiterOk(v.sched, v.entries[i].cord))
    && (forall k :: k in v.sched.blocked ==> BlockOk(v, k))
  }

  /** The arrays are where the first wait found a cord, and `ctx->cord` is the
      visor as soon as it has run. */
  ghost predicate ArraysOk(v: Vis) {
    && |v.entries| <= v.cap && (v.cap == 0 <==> v.home.None?)
    && (v.home.Some? ==> v.home.value < v.sched.count)
    && (v.isBlocked ==> v.cord == v.me)
    && (forall k :: k in v.sched.runable && k.id == v.me && !k.at.Entry? ==> v.cord == v.me)
    && (Mine(v) && !v.sched.exec.cord.at.Entry? ==> v.cord == v.me)
  }

  ghost predicate VisOk(v: Vis) {
    VisOkFacts(v) == true
  }

  ghost predicate VisOkFacts(v: Vis) {
    Inv(v.sched) && EntriesOk(v) && WaitersOk(v) && ArraysOk(v)
  }

  /** As long as the process goes on, all is in order. */
  ghost predicate VisInv(v: Vis) {
    VisInvFacts(v) == true
  }

  ghost predicate VisInvFacts(v: Vis) {
    v.status.Going? ==> VisOk(v)
  }

  lemma NoVisorInv(s: State, me: nat)
    requires Inv(s) && forall k :: k in s.blocked ==> k.at != AfterBlock(OnFd) && k.id != me
    requires forall k :: k in s.runable && k.id == me ==> k.at.Entry?
    requires s.exec.Running? ==> s.exec.cord.id != me
    ensures VisOk(NoVisor(s, me))
  {
  }

  // ---------------------------------------------------------------------
  // The pass
  // ---------------------------------------------------------------------

  ghost predicate OneEach(es: seq<Waiter>) {
    forall i, j :: 0 <= i < j < |es| ==> es[i].cord != es[j].cord
  }

  lemma {:induction false} UnreadyIs(es: seq<Waiter>)
    ensures |Unready(es)| <= |es|
    ensures forall e :: e in Unready(es) <==> e in es && !Ready(e.pfd)
    ensures OneEach(es) ==> OneEach(Unready(es))
  {
    if es != [] {
      var n := |es| - 1;
      UnreadyIs(es[..n]);
      hide Ready;
      assert es == es[..n] + [es[n]];
      if OneEach(es) {
        OneEachSnoc(es[..n], Unready(es[..n]), es[n]);
      }
    }
  }

  /** They stay in order. */
  lemma {:induction false} UnreadyInOrder(es: seq<Waiter>, i: nat, j: nat, a: nat, b: nat)
    requires OneEach(es) && i < j < |Unready(es)| && a < |es| && b < |es|
    requires Unready(es)[i] == es[a] && Unready(es)[j] == es[b]
    ensures a < b
  {
    var n := |es| - 1;
    var some := Unready(es[..n]);
    UnreadyIs(es[..n]);
    assert es[..n] + [es[n]] == es;
    assert some[i] in es[..n];
    var c :| 0 <= c < n && es[c] == some[i];
    assert c == a;
    if j < |some| {
      assert some[j] in es[..n];
      var d :| 0 <= d < n && es[d] == some[j];
      assert d == b;
      UnreadyInOrder(es[..n], i, j, a, b);
    } else {
      assert Unready(es)[j] == es[n];
    }
  }

  lemma OneEachSnoc(es: seq<Waiter>, some: seq<Waiter>, e: Waiter)
    requires OneEach(es + [e]) && (forall x :: x in some ==> x in es) && (OneEach(es) ==> OneEach(some))
    ensures OneEach(es) && OneEach(some) && OneEach(some + [e])
  {
    forall i, j | 0 <= i < j < |es| ensures es[i].cord != es[j].cord {
      assert (es + [e])[i] == es[i] && (es + [e])[j] == es[j];
    }
    forall x | x in es ensures x.cord != e.cord {
      var i :| 0 <= i < |es| && es[i] == x;
      assert (es + [e])[i] == x && (es + [e])[|es|] == e;
    }
  }

  /** A ready entry is of the cord. */
  ghost predicate ReadyFor(es: seq<Waiter>, id: nat) {
    exists i :: 0 <= i < |es| && Ready(es[i].pfd) && es[i].cord == id
  }

  lemma ReadyForSnoc(es: seq<Waiter>, id: nat)
    requires es != []
    ensures var n := |es| - 1;
            ReadyFor(es, id) <==> ReadyFor(es[..n], id) || (Ready(es[n].pfd) && es[n].cord == id)
  {
    var n := |es| - 1;
    if ReadyFor(es[..n], id) {
      var i :| 0 <= i < n && Ready(es[..n][i].pfd) && es[..n][i].cord == id;
      assert es[i] == es[..n][i];
    }
    if ReadyFor(es, id) {
      var i :| 0 <= i < |es| && Ready(es[i].pfd) && es[i].cord == id;
      assert i < n ==> es[..n][i] == es[i];
    }
  }

  /** Where the cords are after a pass. */
  lemma {:induction false} WakeReadySets(s: State, es: seq<Waiter>)
    requires Inv(s) && s.exec.Running?
    ensures var t := WakeReady(s, es);
            && Inv(t)
            && (forall k :: k in t.blocked <==> k in s.blocked && !ReadyFor(es, k.id))
            && (forall k :: k in t.runable ==> k in s.runable || ReadyFor(es, k.id))
  {
    if es != [] {
      var n := |es| - 1;
      var u, e := WakeReady(s, es[..n]), es[n];
      WakeReadySets(s, es[..n]);
      if Ready(e.pfd) {
        WakeKeeps(u, e.cord, AsVal(e.pfd.revents));
        WakeSets(u, e.cord, AsVal(e.pfd.revents));
      }
      hide Wake, Inv;
      forall id: nat ensures ReadyFor(es, id) <==> ReadyFor(es[..n], id) || (Ready(e.pfd) && e.cord == id) {
        ReadyForSnoc(es, id);
      }
      hide ReadyFor;
    }
  }

  lemma PassKeeps(v: Vis)
    requires VisOk(v) && v.sched.exec.Running?
    ensures VisOk(Pass(v))
  {
    hide Inv, Unready, WakeReady;
    var t := Pass(v);
    UnreadyIs(v.entries);
    WakeReadySets(v.sched, v.entries);
    assert !ReadyFor(v.entries, v.me);
    forall i | 0 <= i < |t.entries| ensures WaiterOk(t.sched, t.entries[i].cord) && t.entries[i].cord != v.me {
      UnreadyWaits(v, t.entries[i]);
    }
    forall k | k in t.sched.blocked ensures BlockOk(t, k) {
      assert BlockOk(v, k);
      if k.at == AfterBlock(OnFd) {
        var i :| 0 <= i < |v.entries| && v.entries[i].cord == k.id;
        assert v.entries[i] in t.entries;
      }
    }
  }

  /** A cord that is not ready waits on. */
  lemma UnreadyWaits(v: Vis, e: Waiter)
    requires VisOk(v) && v.sched.exec.Running? && e in v.entries && !Ready(e.pfd)
    ensures WaiterOk(WakeReady(v.sched, v.entries), e.cord) && e.cord != v.me
  {
    WakeReadySets(v.sched, v.entries);
    var i :| 0 <= i < |v.entries| && v.entries[i] == e;
    assert !ReadyFor(v.entries, e.cord);
  }

  // ---------------------------------------------------------------------
  // Every step keeps the invariant
  // ---------------------------------------------------------------------

  lemma SwitchKeeps(v: Vis)
    requires v.sched.exec.Returning? && Counted(v.sched) && FreedByOthers(v.sched.log)
    requires EntriesOk(v) && WaitersOk(v) && ArraysOk(v)
    ensures VisOk(v.(sched := Dispatch(v.sched)))
  {
    DispatchKeeps(v.sched);
    DispatchSets(v.sched);
    hide Dispatch, Counted;
    var w := v.(sched := Dispatch(v.sched));
    forall k | k in w.sched.blocked ensures BlockOk(w, k) {
      assert BlockOk(v, k);
    }
  }

  /** The cord is none in the list. */
  ghost predicate NoWaiter(v: Vis, id: nat) {
    forall i :: 0 <= i < |v.entries| ==> v.entries[i].cord != id
  }

  /** The runnable and blocked cords of `t` were so before, or are none that
      the visor waits for. */
  ghost predicate MovesOthers(v: Vis, t: State) {
    && t.count >= v.sched.count
    && (forall k :: k in t.runable ==> k in v.sched.runable || NoWaiter(v, k.id))
    && (forall k :: k in t.blocked ==> k in v.sched.blocked || (NoWaiter(v, k.id) && BlockOk(v, k)))
    && (t.exec.Running? ==> NoWaiter(v, t.exec.cord.id))
    && (forall k :: k in t.runable && k.id == v.me && !k.at.Entry? ==> v.cord == v.me)
    && (t.exec.Running? && t.exec.cord.id == v.me && !t.exec.cord.at.Entry? ==> v.cord == v.me)
  }

  lemma OthersMoved(v: Vis, t: State)
    requires EntriesOk(v) && WaitersOk(v) && ArraysOk(v) && MovesOthers(v, t)
    ensures EntriesOk(v.(sched := t)) && WaitersOk(v.(sched := t)) && ArraysOk(v.(sched := t))
  {
    var w := v.(sched := t);
    forall k | k in t.blocked ensures BlockOk(w, k) {
      if k in v.sched.blocked {
        assert BlockOk(v, k);
      }
    }
  }

  /** A step in which the visor, if it executes, has run before. */
  lemma StepMoves(v: Vis, step: Step)
    requires VisOk(v) && Enabled(v.sched, step) && (Mine(v) ==> v.cord == v.me)
    requires step.Block? ==> BlockOk(v, v.sched.exec.cord.(at := AfterBlock(step.why)))
    requires step.Unblock? ==> forall k :: k in v.sched.blocked && k.id == step.id ==> k.at != AfterBlock(OnFd)
    ensures VisOk(v.(sched := Next(v.sched, step)))
  {
    var s := v.sched;
    var t := if Switches(step) then Suspended(s, step) else Next(s, step);
    StepKeeps(s, step);
    StepMovesOthers(v, step, t);
    OthersMoved(v, t);
    hide Next, Suspended, Inv, MovesOthers, EntriesOk, WaitersOk, ArraysOk;
    if Switches(step) {
      SuspendedKeeps(s, step);
      SwitchKeeps(v.(sched := t));
    }
  }

  lemma StepMovesOthers(v: Vis, step: Step, t: State)
    requires VisOk(v) && Enabled(v.sched, step) && (Mine(v) ==> v.cord == v.me)
    requires step.Block? ==> BlockOk(v, v.sched.exec.cord.(at := AfterBlock(step.why)))
    requires step.Unblock? ==> forall k :: k in v.sched.blocked && k.id == step.id ==> k.at != AfterBlock(OnFd)
    requires t == if Switches(step) then Suspended(v.sched, step) else Next(v.sched, step)
    ensures MovesOthers(v, t)
  {
    var s := v.sched;
    if step.Add? {
      NextIdIsCount(s);
    }
    assert s.exec.Running? ==> NoWaiter(v, s.exec.cord.id);
    if step.Unblock? {
      WakeSets(s, step.id, step.val);
      hide Wake;
      forall k | k in t.runable && k !in s.runable ensures NoWaiter(v, k.id) && (k.id == v.me ==> v.cord == v.me) {
        var b :| b in s.blocked && k == b.(val := step.val);
        assert BlockOk(v, b) && b.at != AfterBlock(OnFd);
      }
    }
  }

  lemma TurnKeeps(v: Vis, poll: Poll)
    requires VisOk(v) && Mine(v) && (poll.Reported? ==> |poll.revents| == |v.entries|)
    ensures VisInv(Turn(v, poll))
  {
    var u := Started(v);
    StartedKeeps(v);
    hide Inv, EntriesOk, WaitersOk, ArraysOk, Next, Pass, Unready, WakeReady;
    if u.again {
      AgainKeeps(u);
      StepMoves(u.(again := false), Yield);
    } else if u.entries == [] {
      IdleKeeps(u);
      StepMoves(u.(isBlocked := true), Block(OnPoll));
    } else if !(u.home.Some? && Destroyed(u.sched, u.home.value)) {
      PolledKeeps(u, poll);
      AnsweredKeeps(u, poll);
      StepMoves(Answered(u, poll), Yield);
    }
  }

  lemma StartedKeeps(v: Vis)
    requires VisOk(v) && Mine(v)
    ensures VisOk(Started(v)) && Started(v).cord == v.me
  {
    var u := Started(v);
    MeNotBlocked(v);
    hide Inv;
    forall k | k in u.sched.blocked ensures BlockOk(u, k) {
      assert BlockOk(v, k);
    }
  }

  lemma AgainKeeps(v: Vis)
    requires VisOk(v)
    ensures VisOk(v.(again := false))
  {
    var u := v.(again := false);
    hide Inv;
    forall k | k in u.sched.blocked ensures BlockOk(u, k) {
      assert BlockOk(v, k);
    }
  }

  lemma IdleKeeps(v: Vis)
    requires VisOk(v) && Mine(v) && v.entries == [] && v.cord == v.me
    ensures VisOk(v.(isBlocked := true))
    ensures BlockOk(v.(isBlocked := true), v.sched.exec.cord.(at := AfterBlock(OnPoll)))
  {
    var u := v.(isBlocked := true);
    MeNotBlocked(v);
    hide Inv;
    forall k | k in u.sched.blocked ensures BlockOk(u, k) {
      assert BlockOk(v, k);
    }
  }

  lemma AnsweredKeeps(v: Vis, poll: Poll)
    requires poll.Reported? ==> |poll.revents| == |v.entries|
    requires v.sched.exec.Running?
    requires VisOk(v.(entries := Polled(v.entries, poll), again := poll.TimedOut?))
    ensures VisOk(Answered(v, poll)) && Answered(v, poll).cord == v.cord
  {
    if !poll.TimedOut? {
      PassKeeps(v.(entries := Polled(v.entries, poll), again := poll.TimedOut?));
    }
  }

  lemma MeNotBlocked(v: Vis)
    requires Inv(v.sched) && Mine(v)
    ensures forall k :: k in v.sched.blocked ==> k.id != v.me
  {
    Alone(v.sched, v.sched.blocked);
  }

  lemma PolledKeeps(v: Vis, poll: Poll)
    requires VisOk(v) && Mine(v) && (poll.Reported? ==> |poll.revents| == |v.entries|)
    ensures VisOk(v.(entries := Polled(v.entries, poll), again := poll.TimedOut?))
  {
    var t := v.(entries := Polled(v.entries, poll), again := poll.TimedOut?);
    MeNotBlocked(v);
    hide Inv;
    forall k | k in t.sched.blocked ensures BlockOk(t, k) {
      assert BlockOk(v, k);
      if k.at == AfterBlock(OnFd) {
        var i :| 0 <= i < |v.entries| && v.entries[i].cord == k.id;
        assert t.entries[i].cord == k.id;
      }
    }
  }

  lemma FdWaitKeeps(v: Vis, fd: int, read: bool)
    requires VisOk(v) && v.sched.exec.Running? && !Mine(v)
    ensures VisInv(FdWait(v, fd, read))
  {
    if Access(v).Live? {
      var u := Append(v, WaitFor(fd, read));
      AppendSets(v);
      SuspendedKeeps(u.sched, Block(OnFd));
      var w := u.(sched := Suspended(u.sched, Block(OnFd)));
      FdWaitMoves(v, u, w);
      hide EntriesOk, WaitersOk, ArraysOk, Inv, Append, Suspended, Next;
      SwitchKeeps(w);
    }
  }

  /** What a wake-up of the visor by poll_append does to the sets. */
  lemma AppendSets(v: Vis)
    requires Inv(v.sched) && v.sched.exec.Running?
    ensures var s, t := v.sched, if v.isBlocked then Wake(v.sched, v.cord, 0) else v.sched;
            && Inv(t) && t.exec == s.exec && t.count == s.count
            && (forall k :: k in t.blocked ==> k in s.blocked && (v.isBlocked ==> k.id != v.cord))
            && (forall k :: k in t.runable ==>
                  k in s.runable || (v.isBlocked && k.id == v.cord && exists b :: b in s.blocked && k == b.(val := 0)))
  {
    WakeKeeps(v.sched, v.cord, 0);
    WakeSets(v.sched, v.cord, 0);
  }

  /** The caller of fdwait is in the list and about to be blocked. */
  lemma FdWaitMoves(v: Vis, u: Vis, w: Vis)
    requires VisOk(v) && v.sched.exec.Running? && !Mine(v) && Access(v).Live?
    requires exists pfd :: u == Append(v, pfd)
    requires w == u.(sched := Suspended(u.sched, Block(OnFd)))
    ensures EntriesOk(w) && WaitersOk(w) && ArraysOk(w)
  {
    var c := v.sched.exec.cord;
    AppendSets(v);
    CallerAlone(v.sched);
    FdWaitArrays(v, u, w);
    hide Wake, Inv, ArraysOk, Access, Grown;
    forall k | k in w.sched.blocked ensures BlockOk(w, k) {
      if k in u.sched.blocked {
        assert BlockOk(v, k);
        if k.at == AfterBlock(OnFd) {
          var i :| 0 <= i < |v.entries| && v.entries[i].cord == k.id;
          assert w.entries[i].cord == k.id;
        }
      } else {
        assert w.entries[|v.entries|].cord == k.id;
      }
    }
  }

  lemma CallerAlone(s: State)
    requires Inv(s) && s.exec.Running?
    ensures s.exec.cord.id < s.count
    ensures forall k :: k in s.runable || k in s.blocked ==> k.id != s.exec.cord.id
  {
    Alone(s, s.runable);
    Alone(s, s.blocked);
    assert Places(s, s.exec.cord.id) <= 1;
  }

  lemma FdWaitArrays(v: Vis, u: Vis, w: Vis)
    requires VisOk(v) && v.sched.exec.Running? && !Mine(v) && Access(v).Live?
    requires exists pfd :: u == Append(v, pfd)
    requires w == u.(sched := Suspended(u.sched, Block(OnFd)))
    ensures ArraysOk(w)
  {
    AppendSets(v);
    if Present(v.sched, v.cord) {
      PresentCounted(v.sched, v.cord);
    }
    hide Wake, Inv, Present;
    forall k | k in w.sched.runable && k.id == v.me && !k.at.Entry? ensures v.cord == v.me {
      if k !in v.sched.runable {
        assert v.isBlocked;
      }
    }
  }

  /** A cord that getcord finds was created and is not destroyed. */
  lemma PresentCounted(s: State, id: nat)
    requires Counted(s) && Present(s, id)
    ensures id < s.count && !Destroyed(s, id) && Executing(s.exec, id) == 0 && Occ(s.zombies, id) == 0
    ensures Occ(s.runable, id) + Occ(s.blocked, id) == 1
  {
    var p := if Find(s.runable, id) < |s.runable| then AsRunable else AsBlocked;
    var k := Find(CordsAt(s, p), id);
    OccRemove(CordsAt(s, p), k, id);
    assert Places(s, id) == 1;
  }

  lemma OthersBlock(v: Vis, why: Why)
    requires VisOk(v) && v.sched.exec.Running? && !Mine(v) && !why.OnFd?
    ensures BlockOk(v, v.sched.exec.cord.(at := AfterBlock(why)))
  {
  }

  lemma DoKeeps(v: Vis, act: Act)
    requires VisInv(v) && Possible(v, act)
    ensures VisInv(Do(v, act))
  {
    match act
    case Visor(poll) => TurnKeeps(v, poll);
    case Wait(fd, read) => FdWaitKeeps(v, fd, read);
    case Other(step) =>
      if step.Block? {
        OthersBlock(v, step.why);
      }
      StepMoves(v, step);
  }

  lemma {:induction false} ActsKeep(v: Vis, acts: seq<Act>)
    requires VisInv(v) && Runs(v, acts)
    ensures VisInv(AfterActs(v, acts))
    decreases |acts|
  {
    if acts != [] {
      DoKeeps(v, acts[0]);
      ActsKeep(Do(v, acts[0]), acts[1..]);
    }
  }

  // ---------------------------------------------------------------------
  // What holds of every run
  // ---------------------------------------------------------------------

  /** No waiting cord is stranded: while cords wait, the visor is not blocked,
      so that, unless it is dead, it is executing or runnable. */
  lemma VisorAwake(v: Vis, acts: seq<Act>)
    requires VisInv(v) && Runs(v, acts) && AfterActs(v, acts).status.Going? && AfterActs(v, acts).entries != []
    ensures var t := AfterActs(v, acts);
            && (forall k :: k in t.sched.blocked ==> k.id != t.me)
            && (t.me < t.sched.count && TimesFreed(t.sched.log, t.me) == 0 && Occ(t.sched.zombies, t.me) == 0 ==>
                  Mine(t) || exists k :: k in t.sched.runable && k.id == t.me)
  {
    ActsKeep(v, acts);
    var t := AfterActs(v, acts);
    forall k | k in t.sched.blocked ensures k.id != t.me {
      assert BlockOk(t, k);
    }
    if t.me < t.sched.count && TimesFreed(t.sched.log, t.me) == 0 && Occ(t.sched.zombies, t.me) == 0 {
      assert Places(t.sched, t.me) == 1;
      Somewhere(t.sched.blocked, t.me);
      Somewhere(t.sched.runable, t.me);
    }
  }

  /** The cords blocked in fdwait are in the visor's list, each once; what else
      is in the list is dead. */
  lemma ListedOnce(v: Vis, acts: seq<Act>)
    requires VisInv(v) && Runs(v, acts) && AfterActs(v, acts).status.Going?
    ensures var t := AfterActs(v, acts);
            && (forall k :: k in t.sched.blocked && k.at == AfterBlock(OnFd) ==> Listed(t, k.id))
            && (forall i, j :: 0 <= i < j < |t.entries| ==> t.entries[i].cord != t.entries[j].cord)
            && (forall i, k :: 0 <= i < |t.entries| && k in t.sched.blocked && k.id == t.entries[i].cord ==>
                  k.at == AfterBlock(OnFd))
            && (forall i, k :: 0 <= i < |t.entries| && k in t.sched.runable ==> k.id != t.entries[i].cord)
  {
    ActsKeep(v, acts);
    var t := AfterActs(v, acts);
    forall k | k in t.sched.blocked && k.at == AfterBlock(OnFd) ensures Listed(t, k.id) {
      assert BlockOk(t, k);
    }
    forall i, k | 0 <= i < |t.entries| && k in t.sched.blocked && k.id == t.entries[i].cord
      ensures k.at == AfterBlock(OnFd)
    {
      assert WaiterOk(t.sched, t.entries[i].cord);
    }
    forall i, k | 0 <= i < |t.entries| && k in t.sched.runable ensures k.id != t.entries[i].cord {
      assert WaiterOk(t.sched, t.entries[i].cord);
    }
  }

  /** The wake-ups of a pass: one for each ready cord that is blocked, in the
      order of the list, with the events reported for it. */
  function Wakings(s: State, es: seq<Waiter>): seq<Event> {
    if es == [] then []
    else
      var e := es[|es| - 1];
      Wakings(s, es[..|es| - 1])
      + if Ready(e.pfd) && IsBlocked(s, e.cord) then [Woken(e.cord, AsVal(e.pfd.revents))] else []
  }

  lemma {:induction false} PassWakes(s: State, es: seq<Waiter>)
    requires Inv(s) && s.exec.Running?
    requires forall i, j :: 0 <= i < j < |es| ==> es[i].cord != es[j].cord
    ensures WakeReady(s, es).log == s.log + Wakings(s, es)
  {
    if es == [] {
      assert s.log + [] == s.log;
    } else {
      var n := |es| - 1;
      PassWakes(s, es[..n]);
      WakeReadySets(s, es[..n]);
      assert !ReadyFor(es[..n], es[n].cord);
      SameBlocked(s, WakeReady(s, es[..n]), es[n].cord);
    }
  }

  lemma SameBlocked(s: State, t: State, id: nat)
    requires forall k: Cord :: k.id == id ==> (k in t.blocked <==> k in s.blocked)
    ensures IsBlocked(t, id) == IsBlocked(s, id)
  {
    if IsBlocked(s, id) {
      var k := s.blocked[Find(s.blocked, id)];
      assert k in t.blocked;
    }
    if IsBlocked(t, id) {
      var k := t.blocked[Find(t.blocked, id)];
      assert k in s.blocked;
    }
  }

  /** A ready cord that waits is runnable after the pass, to return the events
      reported for it from braidblock. */
  lemma {:induction false} PassWakesEach(s: State, es: seq<Waiter>, i: nat, k: Cord)
    requires Inv(s) && s.exec.Running?
    requires forall i, j :: 0 <= i < j < |es| ==> es[i].cord != es[j].cord
    requires i < |es| && Ready(es[i].pfd) && k in s.blocked && k.id == es[i].cord
    ensures k.(val := AsVal(es[i].pfd.revents)) in WakeReady(s, es).runable
    decreases |es|
  {
    var n := |es| - 1;
    var u := WakeReady(s, es[..n]);
    WakeReadySets(s, es[..n]);
    if i < n {
      PassWakesEach(s, es[..n], i, k);
      WakeSets(u, es[n].cord, AsVal(es[n].pfd.revents));
    } else {
      assert !ReadyFor(es[..n], k.id);
      WakeSets(u, k.id, AsVal(es[n].pfd.revents));
    }
  }

  /** An entry is ready if an error, a hang-up or an invalid descriptor is
      reported, asked for or not, or one of the events asked for. */
  lemma ReadyIs(p: Pollfd)
    ensures Ready(p)
            <==> p.revents & 0x08 != 0 || p.revents & 0x10 != 0 || p.revents & 0x20 != 0 || p.revents & p.events != 0
  {
  }

  /** The events that `poll` reports for an entry are such that its cord is to be
      woken. */
  predicate Calls(revents: bv16, events: bv16) {
    revents & 0x08 != 0 || revents & 0x10 != 0 || revents & 0x20 != 0 || revents & events != 0
  }

  /** After a turn of the visor in which `poll` reported, each cord that waited
      and is to be woken is runnable with the events reported for it, or it
      executes by then. */
  lemma TurnWakesEach(v: Vis, revents: seq<bv16>, i: nat, k: Cord)
    requires VisOk(v) && Possible(v, Act.Visor(Reported(revents))) && !v.again
    requires Turn(v, Reported(revents)).status.Going?
    requires i < |v.entries| && Calls(revents[i], v.entries[i].pfd.events)
    requires k in v.sched.blocked && k.id == v.entries[i].cord
    ensures var t, woken := Turn(v, Reported(revents)).sched, k.(val := revents[i] as nat);
            woken in t.runable || t.exec == Running(woken)
  {
    hide VisOk, Ready, WakeReady, Unready, Dispatch, Inv;
    var u := Started(v);
    ReadyIs(v.entries[i].pfd.(revents := revents[i]));
    StartedKeeps(v);
    PolledKeeps(u, Reported(revents));
    AnsweredKeeps(u, Reported(revents));
    var es := Polled(v.entries, Reported(revents));
    EntriesDistinct(v);
    PassWakesEach(v.sched, es, i, k);
    EntriesDistinct(Answered(u, Reported(revents)));
    StaysWoken(Answered(u, Reported(revents)).sched, k.(val := AsVal(revents[i])));
  }

  /** The others stay: an entry is left in the list if and only if its cord is
      not to be woken, and a cord is left blocked if it is in no such entry. */
  lemma TurnKeepsRest(v: Vis, revents: seq<bv16>)
    requires VisOk(v) && Possible(v, Act.Visor(Reported(revents))) && !v.again
    requires Turn(v, Reported(revents)).status.Going?
    ensures var t := Turn(v, Reported(revents));
            && (forall i :: 0 <= i < |v.entries| ==>
                  (v.entries[i].(pfd := v.entries[i].pfd.(revents := revents[i])) in t.entries
                   <==> !Calls(revents[i], v.entries[i].pfd.events)))
            && (forall e :: e in t.entries ==> exists i :: 0 <= i < |v.entries| && e.cord == v.entries[i].cord)
            && (forall k :: k in v.sched.blocked
                            && (forall i :: 0 <= i < |v.entries| && v.entries[i].cord == k.id ==>
                                  !Calls(revents[i], v.entries[i].pfd.events))
                  ==> k in t.sched.blocked)
  {
    hide VisOk, Ready, WakeReady, Unready, Dispatch, Inv, Calls;
    var es, t := Polled(v.entries, Reported(revents)), Turn(v, Reported(revents));
    EntriesDistinct(v);
    UnreadyIs(es);
    forall i | 0 <= i < |v.entries| ensures Ready(es[i].pfd) <==> Calls(revents[i], v.entries[i].pfd.events) {
      CallsIs(es[i].pfd);
    }
    if v.entries != [] {
      WakeReadySets(v.sched, es);
      YieldBlocks(WakeReady(v.sched, es));
      forall i | 0 <= i < |v.entries| ensures es[i] in t.entries <==> !Calls(revents[i], v.entries[i].pfd.events) {
        assert es[i] in es;
      }
      forall k | k in v.sched.blocked
                 && (forall i :: 0 <= i < |v.entries| && v.entries[i].cord == k.id ==>
                       !Calls(revents[i], v.entries[i].pfd.events))
        ensures k in t.sched.blocked
      {
        assert !ReadyFor(es, k.id);
      }
    } else {
      IdleBlocks(v, Reported(revents));
    }
  }

  lemma CallsIs(p: Pollfd)
    ensures Ready(p) <==> Calls(p.revents, p.events)
  {
    ReadyIs(p);
  }

  lemma YieldBlocks(s: State)
    requires s.exec.Running?
    ensures Next(s, Yield).blocked == s.blocked
  {
    DispatchSets(s.(runable := s.runable + [s.exec.cord.(at := AfterYield)]));
  }

  /** A visor with nothing to wait for blocks, and says so. */
  lemma IdleBlocks(v: Vis, poll: Poll)
    requires Mine(v) && !v.again && v.entries == [] && (poll.Reported? ==> poll.revents == [])
    ensures var t := Turn(v, poll);
              && t.isBlocked && t.entries == []
              && t.sched.blocked == v.sched.blocked + [v.sched.exec.cord.(at := AfterBlock(OnPoll))]
  {
    DispatchSets(v.sched.(blocked := v.sched.blocked + [v.sched.exec.cord.(at := AfterBlock(OnPoll))]));
  }

  /** A `poll` that times out wakes nobody and is followed by two yields, with no
      `poll` in between; any other by one. */
  lemma TimedOutYieldsTwice(v: Vis, poll: Poll)
    requires Possible(v, Act.Visor(poll)) && v.entries != [] && Turn(v, poll).status.Going?
    ensures var t := Turn(v, poll);
            && (v.again ==> t.sched == Next(v.sched, Yield) && !t.again && t.entries == v.entries)
            && (!v.again && poll.TimedOut? ==>
                  && t.sched == Next(v.sched, Yield) && t.again && |t.entries| == |v.entries|
                  && forall i :: 0 <= i < |v.entries| ==>
                       t.entries[i]
                       == Waiter(v.entries[i].cord, Pollfd(v.entries[i].pfd.fd, v.entries[i].pfd.events, 0)))
            && (!v.again && !poll.TimedOut? ==> !t.again)
  {
    hide Next, WakeReady, Unready;
  }

  /** A wait puts the caller's descriptor behind the others, with POLLIN or
      POLLOUT, in arrays that start with room for four and double; it wakes a
      visor that is blocked, and blocks the caller. */
  lemma WaitAsks(v: Vis, fd: int, read: bool)
    requires VisOk(v) && Possible(v, Wait(fd, read)) && Do(v, Wait(fd, read)).status.Going?
    ensures var t, c := Do(v, Wait(fd, read)), v.sched.exec.cord;
            && t.entries == v.entries + [Waiter(c.id, Pollfd(fd, if read then 0x01 else 0x04, 0))]
            && t.cap == (if |v.entries| < v.cap then v.cap else if v.cap == 0 then 4 else 2 * v.cap)
            && !t.isBlocked && (forall k :: k in t.sched.blocked ==> k.id != v.me || !v.isBlocked)
            && c.(at := AfterBlock(OnFd)) in t.sched.blocked
  {
    hide Wake, VisOk, Inv;
    AppendSets(v) by {
      EntriesDistinct(v);
    }
    var u := Append(v, WaitFor(fd, read));
    DispatchSets(u.sched.(blocked := u.sched.blocked + [u.sched.exec.cord.(at := AfterBlock(OnFd))]));
    BlockedIsMe(v);
    assert Do(v, Wait(fd, read)).sched.blocked[|u.sched.blocked|] == v.sched.exec.cord.(at := AfterBlock(OnFd));
  }

  lemma BlockedIsMe(v: Vis)
    requires VisOk(v)
    ensures v.isBlocked ==> v.cord == v.me
  {
  }

  lemma EntriesDistinct(v: Vis)
    requires VisOk(v)
    ensures Inv(v.sched) && forall i, j :: 0 <= i < j < |v.entries| ==> v.entries[i].cord != v.entries[j].cord
  {
  }

  /** A runnable cord stays so when another yields, or goes on. */
  lemma StaysWoken(s: State, k: Cord)
    requires Inv(s) && s.exec.Running? && k in s.runable
    ensures k in Next(s, Yield).runable || Next(s, Yield).exec == Running(k)
  {
    var t, i :| t == Suspended(s, Yield) && 0 <= i < |s.runable| && s.runable[i] == k;
    SuspendedKeeps(s, Yield);
    DispatchSets(t);
    assert t.runable[i] == k;
    if i > 0 {
      assert t.runable[1..][i - 1] == k;
    }
  }

  ghost predicate NoneReady(v: Vis) {
    forall i :: 0 <= i < |v.entries| ==> !Ready(v.entries[i].pfd)
  }

  lemma {:induction false} NoneReadyPass(s: State, es: seq<Waiter>)
    requires forall i :: 0 <= i < |es| ==> !Ready(es[i].pfd)
    ensures WakeReady(s, es) == s && Unready(es) == es
  {
    if es != [] {
      NoneReadyPass(s, es[..|es| - 1]);
    }
  }

  lemma NoneReadyKept(v: Vis, act: Act)
    requires NoneReady(v) && Possible(v, act)
    ensures NoneReady(Do(v, act))
  {
    if act.Visor? && !v.again && v.entries != [] {
      UnreadyIs(Polled(v.entries, act.poll));
    }
  }

  lemma {:induction false} NoneReadyRun(v: Vis, acts: seq<Act>)
    requires NoneReady(v) && Runs(v, acts)
    ensures NoneReady(AfterActs(v, acts))
    decreases |acts|
  {
    if acts != [] {
      NoneReadyKept(v, acts[0]);
      NoneReadyRun(Do(v, acts[0]), acts[1..]);
    }
  }

  /** An interrupted `poll` leaves the events of the one before, of which none
      is ready: it wakes no cord and removes none. */
  lemma InterruptedWakesNone(v: Vis, acts: seq<Act>)
    requires NoneReady(v) && Runs(v, acts)
    requires var t := AfterActs(v, acts);
             Mine(t) && !t.again && t.entries != [] && Turn(t, Interrupted).status == t.status
    ensures var t := AfterActs(v, acts); t.status.Going? ==> Turn(t, Interrupted) == Yielded(Started(t))
  {
    hide AfterActs, NoneReady, Next;
    var t := AfterActs(v, acts);
    NoneReadyRun(v, acts);
    InterruptedPass(t);
  }

  /** An interrupted `poll` is taken for one that reported what is in the list. */
  lemma InterruptedIsReport(v: Vis, revents: seq<bv16>)
    requires Possible(v, Act.Visor(Interrupted)) && |revents| == |v.entries|
    requires forall i :: 0 <= i < |v.entries| ==> v.entries[i].pfd.revents == revents[i]
    ensures Turn(v, Interrupted) == Turn(v, Reported(revents))
  {
    hide Next, Pass, WakeReady, Unready;
    assert Polled(v.entries, Reported(revents)) == v.entries;
  }

  lemma InterruptedPass(t: Vis)
    requires NoneReady(t) && t.sched.exec.Running? && !t.again
    ensures Answered(Started(t), Interrupted) == Started(t)
  {
    NoneReadyPass(t.sched, t.entries);
    hide WakeReady, Unready;
  }
}
