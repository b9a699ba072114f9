/** What holds of every run of the cords with a visor: when its memory is there,
    and how long a cord that waits for a file descriptor can be left alone. */
module VisorRuns {
  import opened Sched
  import opened SchedRuns
  import opened Visors

  // ---------------------------------------------------------------------
  // Memory
  // ---------------------------------------------------------------------

  /** At every wait the visor has run before: `ctx->cord` is its id. (That of
      cord 0 is there from the start.) */
  predicate RanFirst(v: Vis, acts: seq<Act>)
    requires Runs(v, acts)
    decreases |acts|
  {
    acts == [] || ((acts[0].Wait? ==> v.cord == v.me) && RanFirst(Do(v, acts[0]), acts[1..]))
  }

  /** The visor is runnable or blocked, or a zombie while there is room. */
  predicate Serves(v: Vis) {
    Present(v.sched, v.me) || (Occ(v.sched.zombies, v.me) > 0 && |v.entries| < v.cap)
  }

  /** At every wait the visor serves. */
  predicate WaitsServed(v: Vis, acts: seq<Act>)
    requires Runs(v, acts)
    decreases |acts|
  {
    acts == [] || ((acts[0].Wait? ==> Serves(v)) && WaitsServed(Do(v, acts[0]), acts[1..]))
  }

  /** Every wait uses memory that is there. */
  predicate WaitsLive(v: Vis, acts: seq<Act>)
    requires Runs(v, acts)
    decreases |acts|
  {
    acts == [] || ((acts[0].Wait? ==> Access(v).Live?) && WaitsLive(Do(v, acts[0]), acts[1..]))
  }

  /** The arrays, if there are any, are in the visor's arena. */
  predicate AtHome(v: Vis) {
    v.home.Some? ==> v.home.value == v.me
  }

  /** Where a cord is that was created and not destroyed. */
  lemma Alive(s: State, id: nat)
    requires Counted(s) && id < s.count
    ensures !Destroyed(s, id) <==> Executing(s.exec, id) == 1 || Present(s, id) || Occ(s.zombies, id) > 0
  {
    assert Places(s, id) == 1;
    if Present(s, id) {
      PresentCounted(s, id);
    } else {
      NotThere(s.runable, id);
      NotThere(s.blocked, id);
    }
  }

  /** The cord executes, is runnable or blocked, or a zombie. */
  predicate Stands(s: State, id: nat) {
    Executing(s.exec, id) == 1 || Present(s, id) || Occ(s.zombies, id) > 0
  }

  /** What a wait needs. With room in the arrays: that the cord that holds them
      stands. With none: that this is the cord `ctx->cord` names, if there are
      arrays, and that it is runnable or blocked. */
  predicate WaitFinds(v: Vis) {
    var h := if v.home.Some? then v.home.value else v.cord;
    if |v.entries| < v.cap then Stands(v.sched, h) else h == v.cord && Present(v.sched, h)
  }

  /** What a turn of the visor needs, if it looks at the arrays: that the cord
      that holds them stands. */
  predicate TurnFinds(v: Vis) {
    v.again || v.entries == [] || (v.home.Some? && Stands(v.sched, v.home.value))
  }

  predicate Finds(v: Vis, act: Act) {
    match act
    case Visor(_) => TurnFinds(v)
    case Wait(_, _) => WaitFinds(v)
    case Other(_) => true
  }

  /** Every turn and every wait finds what it needs. */
  predicate AllFind(v: Vis, acts: seq<Act>)
    requires Runs(v, acts)
    decreases |acts|
  {
    acts == [] || (Finds(v, acts[0]) && AllFind(Do(v, acts[0]), acts[1..]))
  }

  /** Exactly when a wait uses memory that is there, through the arena that has
      it. */
  lemma WaitIsLive(v: Vis)
    requires VisOk(v) && v.sched.exec.Running?
    ensures Access(v).Live? <==> WaitFinds(v)
  {
    if v.home.Some? {
      Alive(v.sched, v.home.value);
    }
    if Present(v.sched, v.cord) {
      PresentCounted(v.sched, v.cord);
    }
  }

  /** Exactly when a turn of the visor does. */
  lemma TurnIsFound(v: Vis, poll: Poll)
    requires VisOk(v) && Possible(v, Visor(poll))
    ensures Turn(v, poll).status.Going? <==> TurnFinds(v)
  {
    hide Next, WakeReady, Unready, Stands;
    if v.home.Some? {
      Alive(v.sched, v.home.value);
      StandsIs(v.sched, v.home.value);
    }
  }

  lemma StandsIs(s: State, id: nat)
    ensures Stands(s, id) <==> Executing(s.exec, id) == 1 || Present(s, id) || Occ(s.zombies, id) > 0
  {
  }

  /** In every run, whoever waits first, and whichever cord holds the arrays: the
      process goes on with memory that is there iff every turn of the visor and
      every wait finds what it needs. */
  lemma {:induction false} GoesOnIffFound(v: Vis, acts: seq<Act>)
    requires VisInv(v) && v.status.Going? && Runs(v, acts)
    ensures AfterActs(v, acts).status.Going? <==> AllFind(v, acts)
    decreases |acts|
  {
    hide VisInv, Turn, FdWait, Finds, Possible;
    if acts != [] {
      var u := Do(v, acts[0]);
      DoFinds(v, acts[0]);
      DoKeeps(v, acts[0]);
      if u.status.Going? {
        GoesOnIffFound(u, acts[1..]);
      } else {
        NothingAfter(u, acts[1..]);
      }
    }
  }

  lemma DoFinds(v: Vis, act: Act)
    requires VisInv(v) && v.status.Going? && Possible(v, act)
    ensures Do(v, act).status.Going? <==> Finds(v, act)
  {
    hide VisOk, WaitFinds, TurnFinds, Access, Turn, Next;
    match act
    case Visor(poll) => TurnIsFound(v, poll);
    case Wait(_, _) => WaitIsLive(v);
    case Other(_) =>
  }

  /** If the visor has run, a wait uses memory that is there iff the visor is
      runnable or blocked, or a zombie while there is room. */
  lemma ServedIsLive(v: Vis)
    requires VisOk(v) && AtHome(v) && v.cord == v.me && v.sched.exec.Running? && !Mine(v)
    ensures Access(v).Live? <==> Serves(v)
  {
    WaitIsLive(v);
    if Present(v.sched, v.me) {
      PresentCounted(v.sched, v.me);
    }
  }

  /** The visor executes: its arena is there. */
  lemma TurnIsLive(v: Vis, poll: Poll)
    requires VisOk(v) && AtHome(v) && Possible(v, Visor(poll))
    ensures Turn(v, poll).status.Going?
  {
    hide Next, WakeReady, Unready;
    assert Places(v.sched, v.me) <= 1;
  }

  lemma StaysAtHome(v: Vis, act: Act)
    requires AtHome(v) && Possible(v, act) && (act.Wait? ==> v.cord == v.me)
    ensures AtHome(Do(v, act))
  {
    hide Next, WakeReady, Unready, Wake;
  }

  /** If the visor runs before the first wait, then every wait uses memory that
      is there, and the process goes on, iff at every wait the visor is runnable
      or blocked, or a zombie while there is room. */
  lemma {:induction false} LiveIffServed(v: Vis, acts: seq<Act>)
    requires VisInv(v) && v.status.Going? && AtHome(v) && Runs(v, acts) && RanFirst(v, acts)
    ensures WaitsLive(v, acts) <==> WaitsServed(v, acts)
    ensures AfterActs(v, acts).status.Going? <==> WaitsServed(v, acts)
    decreases |acts|
  {
    hide VisInv, Turn, FdWait, AtHome, Serves, Access, Possible;
    if acts != [] {
      var u := Do(v, acts[0]);
      DoStatus(v, acts[0]);
      DoKeeps(v, acts[0]);
      StaysAtHome(v, acts[0]);
      if u.status.Going? {
        LiveIffServed(u, acts[1..]);
      } else {
        NothingAfter(u, acts[1..]);
      }
    }
  }

  lemma NothingAfter(v: Vis, acts: seq<Act>)
    requires Runs(v, acts) && !v.status.Going?
    ensures acts == []
  {
  }

  lemma DoStatus(v: Vis, act: Act)
    requires VisInv(v) && v.status.Going? && AtHome(v) && Possible(v, act) && (act.Wait? ==> v.cord == v.me)
    ensures Do(v, act).status.Going? <==> (act.Wait? ==> Serves(v))
    ensures act.Wait? ==> (Access(v).Live? <==> Serves(v))
  {
    match act
    case Visor(poll) => TurnIsLive(v, poll);
    case Wait(_, _) => ServedIsLive(v);
    case Other(_) =>
  }

  // ---------------------------------------------------------------------
  // What is polled for
  // ---------------------------------------------------------------------

  /** The cord is listed with the same descriptor and the same events. */
  ghost predicate Watched(es: seq<Waiter>, e: Waiter) {
    exists i :: 0 <= i < |es| && es[i].cord == e.cord && es[i].pfd.fd == e.pfd.fd && es[i].pfd.events == e.pfd.events
  }

  /** The cord waits, some time in the run, for the entry's descriptor: to read it
      if the entry has POLLIN, to write it if POLLOUT. */
  ghost predicate AskedFor(v: Vis, acts: seq<Act>, e: Waiter)
    requires Runs(v, acts)
    decreases |acts|
  {
    && acts != []
    && ((acts[0].Wait? && v.sched.exec.cord.id == e.cord && acts[0].fd == e.pfd.fd
         && e.pfd.events == if acts[0].read then 0x01 else 0x04)
        || AskedFor(Do(v, acts[0]), acts[1..], e))
  }

  /** In every run, what is polled for is what was listed before or asked for by
      the same cord since. */
  lemma {:induction false} PollsWhatWasAsked(v: Vis, acts: seq<Act>, e: Waiter)
    requires VisInv(v) && Runs(v, acts) && e in AfterActs(v, acts).entries
    ensures Watched(v.entries, e) || AskedFor(v, acts, e)
    decreases |acts|
  {
    hide VisInv, Do, Possible;
    if acts == [] {
      assert Watched(v.entries, e);
    } else {
      var u := Do(v, acts[0]);
      DoKeeps(v, acts[0]);
      PollsWhatWasAsked(u, acts[1..], e);
      if Watched(u.entries, e) {
        DoWatches(v, acts[0], e);
      }
    }
  }

  /** One act lists nothing but what is asked for, and changes no entry but for
      the events reported. */
  lemma DoWatches(v: Vis, act: Act, e: Waiter)
    requires VisInv(v) && Possible(v, act) && Watched(Do(v, act).entries, e)
    ensures Watched(v.entries, e)
            || (act.Wait? && v.sched.exec.cord.id == e.cord && act.fd == e.pfd.fd
                && e.pfd.events == if act.read then 0x01 else 0x04)
  {
    hide VisOk, Next, WakeReady, Unready, Ready;
    match act
    case Visor(poll) =>
      var t := Turn(v, poll);
      var i :| 0 <= i < |t.entries| && t.entries[i].cord == e.cord && t.entries[i].pfd.fd == e.pfd.fd
               && t.entries[i].pfd.events == e.pfd.events;
      TurnLists(v, poll, t.entries[i]);
    case Wait(fd, read) =>
      if Do(v, act).status.Going? {
        WaitAsks(v, fd, read);
      }
    case Other(_) =>
  }

  lemma TurnLists(v: Vis, poll: Poll, e: Waiter)
    requires Possible(v, Visor(poll)) && e in Turn(v, poll).entries
    ensures Watched(v.entries, e)
  {
    hide Next, WakeReady, Unready, Ready;
    UnreadyIs(Polled(v.entries, poll));
    if e in v.entries {
      var i :| 0 <= i < |v.entries| && v.entries[i] == e;
    } else {
      var i :| 0 <= i < |v.entries| && Polled(v.entries, poll)[i] == e;
      assert v.entries[i].cord == e.cord;
    }
  }

  // ---------------------------------------------------------------------
  // Waiting
  // ---------------------------------------------------------------------

  /** While a cord is blocked in fdwait and the visor lives, `braidstart` does
      not go on. */
  lemma BraidStays(v: Vis, acts: seq<Act>, k: Cord)
    requires VisInv(v) && Runs(v, acts) && AfterActs(v, acts).status.Going?
    requires var s := AfterActs(v, acts).sched;
             && k in s.blocked && k.at == AfterBlock(OnFd)
             && v.me < s.count && !Destroyed(s, v.me) && Occ(s.zombies, v.me) == 0
    ensures !AfterActs(v, acts).sched.exec.Returning?
  {
    var t := AfterActs(v, acts);
    SameVisor(v, acts);
    ActsKeep(v, acts);
    ListedOnce(v, acts);
    assert Listed(t, k.id);
    VisorAwake(v, acts);
  }

  lemma {:induction false} SameVisor(v: Vis, acts: seq<Act>)
    requires Runs(v, acts)
    ensures AfterActs(v, acts).me == v.me
    decreases |acts|
  {
    hide Possible, WakeReady, Unready, Next;
    if acts != [] {
      SameVisor(Do(v, acts[0]), acts[1..]);
    }
  }

  /** Neither a stop of the braid, nor a halt of the visor or of the cord. */
  predicate Spares(acts: seq<Act>, me: nat, id: nat) {
    forall i :: 0 <= i < |acts| && acts[i].Other? ==>
      acts[i].step != Halt(me) && acts[i].step != Halt(id) && !acts[i].step.Stop?
  }

  predicate EntersScheduler(act: Act) {
    act.Other? ==> SchedulingPoint(act.step)
  }

  /** How often `acts` enters the scheduler. */
  function Entries(acts: seq<Act>): nat {
    if acts == [] then 0 else (if EntersScheduler(acts[0]) then 1 else 0) + Entries(acts[1..])
  }

  /** The visor gets to run, within `points` scheduling points. */
  predicate VisorRunsWithin(v: Vis, acts: seq<Act>, points: int)
    requires Runs(v, acts)
    decreases |acts|
  {
    && acts != []
    && var t := Do(v, acts[0]);
       var left := points - if EntersScheduler(acts[0]) then 1 else 0;
       && left >= 0
       && (Mine(t) || VisorRunsWithin(t, acts[1..], left))
  }

  /** What an act of another cord does while a cord is blocked in fdwait: the
      visor keeps its place or moves up, by one at a scheduling point, and the
      cord stays blocked unless the visor runs. */
  lemma VisorMovesUp(v: Vis, act: Act, k: nat, w: Cord)
    requires VisOk(v) && Possible(v, act) && !act.Visor? && Spares([act], v.me, w.id)
    requires k < |v.sched.runable| && v.sched.runable[k].id == v.me
    requires w in v.sched.blocked && w.at == AfterBlock(OnFd)
    requires Do(v, act).status.Going?
    ensures var t := Do(v, act);
            && t.me == v.me && w in t.sched.blocked
            && if EntersScheduler(act) then
                 if k == 0 then Mine(t) else k - 1 < |t.sched.runable| && t.sched.runable[k - 1] == v.sched.runable[k]
               else exists j :: 0 <= j <= k && j < |t.sched.runable| && t.sched.runable[j] == v.sched.runable[k]
  {
    var s := v.sched;
    assert [act][0] == act;
    match act
    case Wait(fd, read) =>
      VisorNotBlocked(v, k);
      SettledWake(s, v.cord, 0, v.isBlocked && v.cord == v.me);
      MovesUp(s, Block(OnFd), v.me, k);
      SuspendedKeeps(s, Block(OnFd));
      DispatchSets(Suspended(s, Block(OnFd)));
    case Other(step) =>
      MovesUp(s, step, v.me, k);
      WaiterStays(v, step, w);
  }

  /** A runnable visor is not blocked. */
  lemma VisorNotBlocked(v: Vis, k: nat)
    requires Inv(v.sched) && k < |v.sched.runable| && v.sched.runable[k].id == v.me
    ensures !IsBlocked(v.sched, v.me)
  {
    OnlyThere(v.sched, AsRunable, k);
    assert CordsAt(v.sched, AsRunable) == v.sched.runable && CordsAt(v.sched, AsBlocked) == v.sched.blocked;
  }

  lemma SettledWake(s: State, id: nat, val: nat, useful: bool)
    requires useful ==> !IsBlocked(s, id)
    ensures useful ==> Wake(s, id, val) == s
  {
  }

  lemma WaiterStays(v: Vis, step: Step, w: Cord)
    requires VisOk(v) && Possible(v, Other(step)) && step != Halt(w.id) && !step.Finish?
    requires w in v.sched.blocked && w.at == AfterBlock(OnFd)
    ensures w in Next(v.sched, step).blocked
  {
    var s := v.sched;
    if Switches(step) {
      SuspendedKeeps(s, step);
      DispatchSets(Suspended(s, step));
    } else if step.Unblock? {
      WakeSets(s, step.id, step.val);
    } else if step.Halt? {
      var i :| 0 <= i < |s.blocked| && s.blocked[i] == w;
      var l := Find(s.blocked, step.id);
      if l < |s.blocked| && Find(s.runable, step.id) == |s.runable| {
        assert Remove(s.blocked, l)[if i < l then i else i - 1] == w;
      }
    }
  }

  /** A visor at position `k` of the runnable cords runs within `k + 1`
      scheduling points while a cord is blocked in fdwait, although it is a
      system cord; unless it or that cord is halted, or the braid is stopped. */
  lemma {:induction false} VisorBoundedWait(v: Vis, acts: seq<Act>, k: nat, w: Cord)
    requires VisOk(v) && Runs(v, acts) && AfterActs(v, acts).status.Going? && Spares(acts, v.me, w.id)
    requires k < |v.sched.runable| && v.sched.runable[k].id == v.me
    requires w in v.sched.blocked && w.at == AfterBlock(OnFd)
    requires Entries(acts) >= k + 1
    ensures VisorRunsWithin(v, acts, k + 1)
    decreases |acts|
  {
    hide VisOk, Do, Possible, Mine;
    var act := acts[0];
    var t := Do(v, act);
    NotVisorsTurn(v, act, k);
    GoingOn(v, acts);
    DoKeeps(v, act);
    assert Spares([act], v.me, w.id) && Spares(acts[1..], v.me, w.id);
    VisorMovesUp(v, act, k, w);
    if EntersScheduler(act) {
      if k > 0 {
        VisorBoundedWait(t, acts[1..], k - 1, w);
      }
    } else if !Mine(t) {
      var j :| 0 <= j <= k && j < |t.sched.runable| && t.sched.runable[j] == v.sched.runable[k];
      VisorBoundedWait(t, acts[1..], j, w);
      VisorWithinMore(t, acts[1..], j + 1, k + 1);
    }
  }

  lemma NotVisorsTurn(v: Vis, act: Act, k: nat)
    requires VisOk(v) && Possible(v, act) && k < |v.sched.runable| && v.sched.runable[k].id == v.me
    ensures v.status.Going? && !act.Visor?
  {
    OnlyThere(v.sched, AsRunable, k);
    assert CordsAt(v.sched, AsRunable) == v.sched.runable;
  }

  lemma GoingOn(v: Vis, acts: seq<Act>)
    requires Runs(v, acts) && acts != [] && AfterActs(v, acts).status.Going?
    ensures Do(v, acts[0]).status.Going?
  {
    hide Do, Possible;
    if !Do(v, acts[0]).status.Going? {
      NothingAfter(Do(v, acts[0]), acts[1..]);
    }
  }

  lemma {:induction false} VisorWithinMore(v: Vis, acts: seq<Act>, points: int, more: int)
    requires Runs(v, acts) && VisorRunsWithin(v, acts, points) && points <= more
    ensures VisorRunsWithin(v, acts, more)
    decreases |acts|
  {
    hide Do, Possible, Mine;
    var t := Do(v, acts[0]);
    if !Mine(t) {
      var d := if EntersScheduler(acts[0]) then 1 else 0;
      VisorWithinMore(t, acts[1..], points - d, more - d);
    }
  }

  // ---------------------------------------------------------------------
  // Runs in which a wait does not find its memory
  // ---------------------------------------------------------------------

  /** A run can go on with an act that leads to `w`. */
  lemma RunsTo(v: Vis, acts: seq<Act>, u: Vis, act: Act, w: Vis)
    requires Runs(v, acts) && AfterActs(v, acts) == u && Possible(u, act) && Do(u, act) == w
    ensures Runs(v, acts + [act]) && AfterActs(v, acts + [act]) == w
  {
    hide Do, Possible;
    assert [act][0] == act && [act][1..] == [];
    assert Runs(u, [act]) && AfterActs(u, [act]) == w;
    ActsOn(v, acts, [act]);
  }

  /** Cord 1 executes, and the visor, cord 0, is blocked. */
  function IdleVisor(): Vis {
    NoVisor(State(Running(Cord(1, false, 0, Entry)), [], [Cord(0, true, 0, AfterBlock(OnPoll))], [], 2, []), 0)
    .(isBlocked := true)
  }

  function UntilIdle(): seq<Act> {
    [] + [Other(Add(true))] + [Other(Add(false))] + [Other(Start)] + [Act.Visor(TimedOut)]
  }

  lemma VisorIdles()
    ensures Runs(NoVisor(Init(), 0), UntilIdle()) && AfterActs(NoVisor(Init(), 0), UntilIdle()) == IdleVisor()
  {
    var v := NoVisor(Init(), 0);
    var v1 := NoVisor(State(Setup, [Cord(0, true, 0, Entry)], [], [], 1, []), 0);
    var v2 := NoVisor(State(Setup, [Cord(0, true, 0, Entry), Cord(1, false, 0, Entry)], [], [], 2, []), 0);
    var v3 := NoVisor(State(Running(Cord(0, true, 0, Entry)), [Cord(1, false, 0, Entry)], [], [], 2, []), 0);
    RunsTo(v, [], v, Other(Add(true)), v1);
    RunsTo(v, [] + [Other(Add(true))], v1, Other(Add(false)), v2);
    RunsTo(v, [] + [Other(Add(true))] + [Other(Add(false))], v2, Other(Start), v3);
    RunsTo(v, [] + [Other(Add(true))] + [Other(Add(false))] + [Other(Start)], v3, Act.Visor(TimedOut), IdleVisor());
  }

  /** The visor is halted while it is blocked; the next wait needs room, there is
      no cord to take it from, and the process ends. */
  lemma HaltedVisorEndsProcess()
    ensures var acts := UntilIdle() + [Other(Halt(0))] + [Wait(5, true)];
            Runs(NoVisor(Init(), 0), acts) && AfterActs(NoVisor(Init(), 0), acts).status == Exited
  {
    hide UntilIdle, Runs, AfterActs;
    var v, u := NoVisor(Init(), 0), IdleVisor();
    var w := u.(sched := u.sched.(blocked := [], zombies := u.sched.blocked));
    VisorIdles();
    RunsTo(v, UntilIdle(), u, Other(Halt(0)), w);
    RunsTo(v, UntilIdle() + [Other(Halt(0))], w, Wait(5, true), w.(status := Exited));
  }

  /** Cord 1 waits, so that there are arrays with room, and is woken; it halts the
      visor and yields, which destroys it; the next wait uses the arrays. */
  lemma DestroyedVisorDangles()
    ensures var acts := UntilIdle() + [Wait(5, true)] + [Act.Visor(Reported([POLLIN]))] + [Other(Halt(0))]
                        + [Other(Yield)] + [Wait(5, true)];
            Runs(NoVisor(Init(), 0), acts) && AfterActs(NoVisor(Init(), 0), acts).status == Undefined
  {
    hide UntilIdle, Runs, AfterActs, Do, Possible, Woke;
    var v, acts := NoVisor(Init(), 0), UntilIdle();
    VisorIdles();
    IdleWaits();
    RunsTo(v, acts, IdleVisor(), Wait(5, true), OneWaits());
    OneReported();
    RunsTo(v, acts + [Wait(5, true)], OneWaits(), Act.Visor(Reported([POLLIN])), Woke());
    WokeHalts();
    RunsTo(v, acts + [Wait(5, true)] + [Act.Visor(Reported([POLLIN]))], Woke(), Other(Halt(0)), Alone());
    AloneYields();
    RunsTo(v, acts + [Wait(5, true)] + [Act.Visor(Reported([POLLIN]))] + [Other(Halt(0))], Alone(), Other(Yield),
           Bereft());
    RunsTo(v, acts + [Wait(5, true)] + [Act.Visor(Reported([POLLIN]))] + [Other(Halt(0))] + [Other(Yield)], Bereft(),
           Wait(5, true), Bereft().(status := Undefined));
  }

  /** Cord 1 waits, and the visor executes. */
  function OneWaits(): Vis {
    IdleVisor().(sched := State(Running(Cord(0, true, 0, AfterBlock(OnPoll))), [],
                                [Cord(1, false, 0, AfterBlock(OnFd))],
                                [], 2, [Woken(0, 0), Returned(0, 0)]),
                 entries := [Waiter(1, Pollfd(5, POLLIN, 0))], cap := 4, home := Some(0), isBlocked := false)
  }

  lemma IdleWaits()
    ensures Possible(IdleVisor(), Wait(5, true)) && Do(IdleVisor(), Wait(5, true)) == OneWaits()
  {
    var u := Append(IdleVisor(), WaitFor(5, true));
    assert u.sched.runable == [Cord(0, true, 0, AfterBlock(OnPoll))] && u.sched.blocked == [];
    assert [Woken(0, 0)] + [Returned(0, 0)] == [Woken(0, 0), Returned(0, 0)];
  }

  /** Cord 1 was woken and executes; the visor is runnable. */
  function Woke(): Vis {
    var val := AsVal(POLLIN);
    OneWaits().(sched := State(Running(Cord(1, false, val, AfterBlock(OnFd))), [Cord(0, true, 0, AfterYield)],
                               [], [], 2,
                               [Woken(0, 0), Returned(0, 0), Woken(1, val), Returned(1, val)]),
                entries := [])
  }

  lemma OneReported()
    ensures var act := Act.Visor(Reported([POLLIN])); Possible(OneWaits(), act) && Do(OneWaits(), act) == Woke()
  {
    var v, val := OneWaits(), AsVal(POLLIN);
    var es := [Waiter(1, Pollfd(5, POLLIN, POLLIN))];
    assert Polled(v.entries, Reported([POLLIN])) == es;
    assert POLLIN & (POLLIMPLICIT | POLLIN) != 0;
    assert es[..0] == [] && Unready(es[..0]) == [] && WakeReady(v.sched, es[..0]) == v.sched;
    assert Unready(es) == [];
    var t := Answered(v, Reported([POLLIN])).sched;
    assert t == Wake(v.sched, 1, val);
    assert t.runable == [Cord(1, false, val, AfterBlock(OnFd))] && t.blocked == [];
    assert v.sched.log + [Woken(1, val)] + [Returned(1, val)] == Woke().sched.log;
  }

  /** The visor is a zombie. */
  function Alone(): Vis {
    Woke().(sched := Woke().sched.(runable := [], zombies := [Cord(0, true, 0, AfterYield)]))
  }

  lemma WokeHalts()
    ensures Possible(Woke(), Other(Halt(0))) && Do(Woke(), Other(Halt(0))) == Alone()
  {
    hide AsVal;
  }

  /** The visor is destroyed, and its arena with it. */
  function Bereft(): Vis {
    Alone().(sched := Alone().sched.(exec := Running(Alone().sched.exec.cord.(at := AfterYield)), zombies := [],
                                     log := Alone().sched.log + [Freed(0, Some(1))]))
  }

  lemma AloneYields()
    ensures Possible(Alone(), Other(Yield)) && Do(Alone(), Other(Yield)) == Bereft()
    ensures Possible(Bereft(), Wait(5, true)) && Do(Bereft(), Wait(5, true)) == Bereft().(status := Undefined)
  {
    hide AsVal;
    var s := Alone().sched;
    var c := s.exec.cord.(at := AfterYield);
    assert Suspended(s, Yield).runable == [c];
    assert FreeAll(s.zombies, Some(1)) == [Freed(0, Some(1))];
    FreeTimes(s.log, s.zombies, Some(1), 0);
  }

  /** Cords 0 and 1 are normal, cord 2 is the visor; cord 0 has yielded to
      cord 1. */
  function Early(): Vis {
    NoVisor(State(Running(Cord(1, false, 0, Entry)),
                  [Cord(2, true, 0, Entry), Cord(0, false, 0, AfterYield)], [], [], 3,
                  []), 2)
  }

  function UntilEarly(): seq<Act> {
    [] + [Other(Add(false))] + [Other(Add(false))] + [Other(Add(true))] + [Other(Start)] + [Other(Yield)]
  }

  lemma EarlyComes()
    ensures Runs(NoVisor(Init(), 2), UntilEarly()) && AfterActs(NoVisor(Init(), 2), UntilEarly()) == Early()
  {
    hide Runs, AfterActs;
    var v, acts := NoVisor(Init(), 2), UntilEarly();
    var a, b, c := Cord(0, false, 0, Entry), Cord(1, false, 0, Entry), Cord(2, true, 0, Entry);
    var v1 := v.(sched := State(Setup, [a], [], [], 1, []));
    var v2 := v.(sched := State(Setup, [a, b], [], [], 2, []));
    var v3 := v.(sched := State(Setup, [a, b, c], [], [], 3, []));
    var v4 := v.(sched := State(Running(a), [b, c], [], [], 3, []));
    NoActs(v);
    RunsTo(v, [], v, Other(Add(false)), v1);
    RunsTo(v, [] + [Other(Add(false))], v1, Other(Add(false)), v2);
    RunsTo(v, [] + [Other(Add(false))] + [Other(Add(false))], v2, Other(Add(true)), v3);
    RunsTo(v, [] + [Other(Add(false))] + [Other(Add(false))] + [Other(Add(true))], v3, Other(Start), v4);
    assert Suspended(v4.sched, Yield).runable == [b, c, a.(at := AfterYield)];
    RunsTo(v, [] + [Other(Add(false))] + [Other(Add(false))] + [Other(Add(true))] + [Other(Start)], v4, Other(Yield),
           Early());
  }

  lemma NoActs(v: Vis)
    ensures Runs(v, []) && AfterActs(v, []) == v
  {
  }

  /** Cord 1 waits: the arrays are in the arena of cord 0; the visor comes in. */
  function InWrongArena(): Vis {
    Early().(sched := State(Running(Cord(2, true, 0, Entry)), [Cord(0, false, 0, AfterYield)],
                            [Cord(1, false, 0, AfterBlock(OnFd))], [], 3, []),
             entries := [Waiter(1, Pollfd(5, POLLIN, 0))], cap := 4, home := Some(0))
  }

  /** The visor polls in vain and yields to cord 0. */
  function PolledInVain(): Vis {
    InWrongArena().(sched := InWrongArena().sched.(exec := Running(Cord(0, false, 0, AfterYield)),
                                                   runable := [Cord(2, true, 0, AfterYield)]),
                    cord := 2, again := true)
  }

  lemma EarlyWaits()
    ensures Possible(Early(), Wait(5, true)) && Do(Early(), Wait(5, true)) == InWrongArena()
    ensures var act := Act.Visor(TimedOut); Possible(InWrongArena(), act) && Do(InWrongArena(), act) == PolledInVain()
  {
    assert Suspended(Early().sched, Block(OnFd)).blocked == [Cord(1, false, 0, AfterBlock(OnFd))];
    var v := Started(InWrongArena());
    assert Polled(v.entries, TimedOut) == v.entries;
    assert Suspended(v.sched, Yield).runable == [Cord(0, false, 0, AfterYield), Cord(2, true, 0, AfterYield)];
  }

  /** Cord 0 has exited and is destroyed; the visor executes. */
  function HomeGone(): Vis {
    PolledInVain().(sched := PolledInVain().sched.(exec := Running(Cord(2, true, 0, AfterYield)), runable := [],
                                                   log := [Freed(0, Some(2))]))
  }

  lemma HomeGoes()
    ensures Possible(PolledInVain(), Other(Exit)) && Do(PolledInVain(), Other(Exit)) == HomeGone()
    ensures var act := Act.Visor(TimedOut);
            Possible(HomeGone(), act) && Do(HomeGone(), act) == HomeGone().(again := false)
  {
    var u := Suspended(PolledInVain().sched, Exit);
    assert u.zombies == [Cord(0, false, 0, AfterYield)];
    assert FreeAll(u.zombies, Some(2)) == [Freed(0, Some(2))] && [] + [Freed(0, Some(2))] == [Freed(0, Some(2))];
    assert Suspended(HomeGone().sched, Yield).runable == [Cord(2, true, 0, AfterYield)];
  }

  lemma HomeMissed()
    ensures var v, act := HomeGone().(again := false), Act.Visor(TimedOut);
            Possible(v, act) && Do(v, act) == v.(status := Undefined)
  {
    FreeTimes([], [Cord(0, false, 0, AfterYield)], Some(2), 0);
    assert [] + FreeAll([Cord(0, false, 0, AfterYield)], Some(2)) == [Freed(0, Some(2))];
  }

  /** A wait before the visor ever ran, while cord 0 is runnable, puts the arrays
      into the arena of cord 0. That exits, and the visor uses them. */
  lemma EarlyWaitDangles()
    ensures var acts := UntilEarly() + [Wait(5, true)] + [Act.Visor(TimedOut)] + [Other(Exit)] + [Act.Visor(TimedOut)]
                        + [Act.Visor(TimedOut)];
            Runs(NoVisor(Init(), 2), acts) && AfterActs(NoVisor(Init(), 2), acts).status == Undefined
  {
    hide UntilEarly, Runs, AfterActs, Do, Possible, Early, InWrongArena, PolledInVain, HomeGone;
    var v, acts, turn := NoVisor(Init(), 2), UntilEarly(), Act.Visor(TimedOut);
    EarlyComes();
    EarlyWaits();
    RunsTo(v, acts, Early(), Wait(5, true), InWrongArena());
    RunsTo(v, acts + [Wait(5, true)], InWrongArena(), turn, PolledInVain());
    HomeGoes();
    RunsTo(v, acts + [Wait(5, true)] + [turn], PolledInVain(), Other(Exit), HomeGone());
    RunsTo(v, acts + [Wait(5, true)] + [turn] + [Other(Exit)], HomeGone(), turn, HomeGone().(again := false));
    HomeMissed();
    RunsTo(v, acts + [Wait(5, true)] + [turn] + [Other(Exit)] + [turn], HomeGone().(again := false), turn,
           HomeGone().(again := false).(status := Undefined));
  }

  // -- four early waits, and one when the visor has run -----------------

  /** Cords 0 to 4 are normal, cord 5 is the visor. */
  function Fresh(id: nat): Cord {
    Cord(id, id == 5, 0, Entry)
  }

  function Created(n: nat): Vis {
    NoVisor(State(Setup, seq(n, i requires 0 <= i < n => Fresh(i)), [], [], n, []), 5)
  }

  function Creating(n: nat): seq<Act> {
    if n == 0 then [] else Creating(n - 1) + [Other(Add(n - 1 == 5))]
  }

  lemma {:induction false} CreatedComes(n: nat)
    ensures Runs(Created(0), Creating(n)) && AfterActs(Created(0), Creating(n)) == Created(n)
  {
    hide Runs, AfterActs;
    if n == 0 {
      NoActs(Created(0));
    } else {
      CreatedComes(n - 1);
      var s, t := Created(n - 1).sched, Created(n).sched;
      NotAt(s, AsRunable, n - 1);
      assert t.runable == s.runable + [Fresh(n - 1)];
      RunsTo(Created(0), Creating(n - 1), Created(n - 1), Other(Add(n - 1 == 5)), Created(n));
    }
  }

  /** A switch to a cord that is fresh, or has yielded, when nothing was
      destroyed yet and there is nothing to destroy. */
  lemma PlainSwitch(s: State)
    requires s.zombies == [] && s.log == [] && s.runable != [] && Busy(s, 0)
    requires !s.runable[0].at.AfterBlock?
    ensures Dispatch(s) == s.(exec := Running(s.runable[0]), runable := s.runable[1..])
  {
    BusyHasNext(s, 0);
    assert [] + FreeAll([], Executor(Running(s.runable[0]))) == [];
  }

  /** Cords 1 to `n` wait, with their arrays in the arena of cord 0, which has
      yielded; the visor has not run. */
  function Waiting(n: nat): Vis
    requires n <= 4
  {
    NoVisor(State(Running(Fresh(n + 1)), seq(4 - n, i requires 0 <= i < 4 - n => Fresh(n + 2 + i)) + [Yielder()],
                  seq(n, i requires 0 <= i < n => Cord(i + 1, false, 0, AfterBlock(OnFd))), [], 6, []), 5)
    .(entries := seq(n, i requires 0 <= i < n => Waiter(i + 1, Pollfd(5, POLLIN, 0))),
      cap := if n == 0 then 0 else 4, home := if n == 0 then None else Some(0))
  }

  function Yielder(): Cord {
    Cord(0, false, 0, AfterYield)
  }

  function UntilWaiting(n: nat): seq<Act> {
    if n == 0 then Creating(6) + [Other(Start)] + [Other(Yield)] else UntilWaiting(n - 1) + [Wait(5, true)]
  }

  lemma FirstWaiting()
    ensures Runs(Created(0), UntilWaiting(0)) && AfterActs(Created(0), UntilWaiting(0)) == Waiting(0)
  {
    hide Runs, AfterActs, Creating, Dispatch;
    var v := Created(6);
    var u := v.(sched := v.sched.(exec := Running(Fresh(0)), runable := v.sched.runable[1..]));
    CreatedComes(6);
    assert v.sched.runable[0] == Fresh(0);
    PlainSwitch(v.sched);
    RunsTo(Created(0), Creating(6), v, Other(Start), u);
    var t := u.sched.(runable := u.sched.runable + [Yielder()]);
    assert t.runable[0] == Fresh(1) && t.runable[1..] == Waiting(0).sched.runable;
    PlainSwitch(t);
    RunsTo(Created(0), Creating(6) + [Other(Start)], u, Other(Yield), Waiting(0));
  }

  /** One cord more waits. */
  lemma OneMoreWaits(n: nat)
    requires n < 4
    ensures Possible(Waiting(n), Wait(5, true)) && Do(Waiting(n), Wait(5, true)) == Waiting(n + 1)
  {
    hide Dispatch;
    var v, w := Waiting(n), Waiting(n + 1);
    assert v.sched.runable[|v.sched.runable| - 1] == Yielder();
    assert Present(v.sched, 0);
    var u := Append(v, WaitFor(5, true));
    assert u.entries == w.entries;
    var t := u.sched.(blocked := u.sched.blocked + [u.sched.exec.cord.(at := AfterBlock(OnFd))]);
    assert t.blocked == w.sched.blocked && t.blocked != [];
    assert t.runable[0] == Fresh(n + 2) && t.runable[1..] == w.sched.runable;
    PlainSwitch(t);
  }

  lemma {:induction false} WaitingComes(n: nat)
    requires n <= 4
    ensures Runs(Created(0), UntilWaiting(n)) && AfterActs(Created(0), UntilWaiting(n)) == Waiting(n)
  {
    hide Runs, AfterActs, Do, Possible, Waiting;
    if n == 0 {
      FirstWaiting();
    } else {
      WaitingComes(n - 1);
      OneMoreWaits(n - 1);
      RunsTo(Created(0), UntilWaiting(n - 1), Waiting(n - 1), Wait(5, true), Waiting(n));
    }
  }

  /** The visor has come in, polled in vain, and yielded to cord 0. */
  function FullInVain(): Vis {
    var v := Waiting(4);
    v.(sched := v.sched.(exec := Running(Yielder()), runable := [Cord(5, true, 0, AfterYield)]),
      cord := 5, again := true)
  }

  lemma FullPolls()
    ensures Possible(Waiting(4), Act.Visor(TimedOut)) && Do(Waiting(4), Act.Visor(TimedOut)) == FullInVain()
    ensures Possible(FullInVain(), Wait(5, true)) && Do(FullInVain(), Wait(5, true)) == FullInVain().(status := Mixed)
  {
    hide Dispatch;
    var v := Started(Waiting(4));
    assert Polled(v.entries, TimedOut) == v.entries;
    var t := v.sched.(runable := v.sched.runable + [Cord(5, true, 0, AfterYield)]);
    assert t.runable == [Yielder(), Cord(5, true, 0, AfterYield)];
    PlainSwitch(t);
    assert FullInVain().sched.runable[0].id == 5 && Present(FullInVain().sched, 5);
  }

  /** Four waits before the visor ran fill the arrays in the arena of cord 0; when
      the visor has run, the next wait reallocates them through the visor's. */
  lemma EarlyArraysMix()
    ensures var acts := UntilWaiting(4) + [Act.Visor(TimedOut)] + [Wait(5, true)];
            Runs(NoVisor(Init(), 5), acts) && AfterActs(NoVisor(Init(), 5), acts).status == Mixed
  {
    hide Runs, AfterActs, Do, Possible, Waiting, UntilWaiting;
    assert Created(0) == NoVisor(Init(), 5);
    WaitingComes(4);
    FullPolls();
    RunsTo(Created(0), UntilWaiting(4), Waiting(4), Act.Visor(TimedOut), FullInVain());
    RunsTo(Created(0), UntilWaiting(4) + [Act.Visor(TimedOut)], FullInVain(), Wait(5, true),
           FullInVain().(status := Mixed));
  }
}
