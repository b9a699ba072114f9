/** What holds of every run of the scheduler. */
module SchedRuns {
  import opened Sched

  // ---------------------------------------------------------------------
  // Destruction
  // ---------------------------------------------------------------------

  /** In every reachable state each cord created is executing, runnable,
      blocked, a zombie or destroyed: exactly one of these, once. */
  lemma EachInOnePlace(steps: seq<Step>, id: nat)
    requires Allowed(Init(), steps)
    ensures Places(After(Init(), steps), id) == if id < After(Init(), steps).count then 1 else 0
  {
    RunKeeps(Init(), steps);
  }

  /** Once `braidstart` has finished, every cord was destroyed exactly once. */
  lemma AllDestroyedOnce(steps: seq<Step>, id: nat)
    requires Allowed(Init(), steps) && After(Init(), steps).exec.Finished?
    ensures TimesFreed(After(Init(), steps).log, id) == if id < After(Init(), steps).count then 1 else 0
  {
    RunKeeps(Init(), steps);
    assert Places(After(Init(), steps), id) == TimesFreed(After(Init(), steps).log, id);
  }

  lemma StepLog(s: State, step: Step)
    requires Enabled(s, step)
    ensures s.log <= Next(s, step).log
  {
  }

  lemma {:induction false} RunLog(s: State, steps: seq<Step>)
    requires Allowed(s, steps)
    ensures s.log <= After(s, steps).log
    decreases |steps|
  {
    if steps != [] {
      StepLog(s, steps[0]);
      RunLog(Next(s, steps[0]), steps[1..]);
    }
  }

  /** A destroyed cord is never again executing, runnable, blocked or a zombie,
      and is not destroyed again. */
  lemma DestroyedStaysOut(s: State, steps: seq<Step>, id: nat)
    requires Inv(s) && TimesFreed(s.log, id) > 0 && Allowed(s, steps)
    ensures var t := After(s, steps);
            && TimesFreed(t.log, id) == 1 && Executing(t.exec, id) == 0
            && Occ(t.runable, id) == Occ(t.blocked, id) == Occ(t.zombies, id) == 0
  {
    var t := After(s, steps);
    RunKeeps(s, steps);
    RunLog(s, steps);
    assert t.log == s.log + t.log[|s.log|..];
    TimesFreedAppend(s.log, t.log[|s.log|..], id);
    assert Places(t, id) <= 1;
  }

  /** No destruction frees the executing context. */
  lemma NoneDestroysItself(steps: seq<Step>, k: nat)
    requires Allowed(Init(), steps)
    requires k < |After(Init(), steps).log| && After(Init(), steps).log[k].Freed?
    ensures var e := After(Init(), steps).log[k]; e.who != Some(e.id)
  {
    RunKeeps(Init(), steps);
  }

  // ---------------------------------------------------------------------
  // The end of a cord, and of the braid
  // ---------------------------------------------------------------------

  /** A cord that was created and can no longer run. */
  ghost predicate CannotRun(s: State, id: nat) {
    id < s.count && Executing(s.exec, id) == 0 && Occ(s.runable, id) == 0 && Occ(s.blocked, id) == 0
  }

  lemma DispatchCannot(s: State, id: nat)
    requires CannotRun(s.(exec := Returning), id)
    ensures CannotRun(Dispatch(s), id)
  {
    DispatchSets(s);
  }

  lemma StepCannot(s: State, step: Step, id: nat)
    requires Inv(s) && Enabled(s, step) && CannotRun(s, id)
    ensures CannotRun(Next(s, step), id)
  {
    match step
    case Add(system) =>
      NextIdIsCount(s);
      OccSnoc(s.runable, Cord(s.count, system, 0, Entry), id);
    case Start => DispatchCannot(s, id);
    case Yield =>
      OccSnoc(s.runable, s.exec.cord.(at := AfterYield), id);
      DispatchCannot(s.(runable := s.runable + [s.exec.cord.(at := AfterYield)]), id);
    case Block(why) =>
      OccSnoc(s.blocked, s.exec.cord.(at := AfterBlock(why)), id);
      DispatchCannot(s.(blocked := s.blocked + [s.exec.cord.(at := AfterBlock(why))]), id);
    case Unblock(woken, val) =>
      var k := Find(s.blocked, woken);
      if k < |s.blocked| {
        OccRemove(s.blocked, k, id);
        OccSnoc(s.runable, s.blocked[k].(val := val), id);
      }
    case Exit => DispatchCannot(s.(zombies := s.zombies + [s.exec.cord]), id);
    case Stop => DispatchCannot(Stopped(s), id);
    case Halt(other) =>
      var k, l := Find(s.runable, other), Find(s.blocked, other);
      if k < |s.runable| {
        OccRemove(s.runable, k, id);
      } else if l < |s.blocked| {
        OccRemove(s.blocked, l, id);
      }
    case Finish =>
  }

  /** A cord that cannot run will not run, be runnable or block ever again. */
  lemma {:induction false} CannotRunEver(s: State, steps: seq<Step>, id: nat)
    requires Inv(s) && Allowed(s, steps) && CannotRun(s, id)
    ensures CannotRun(After(s, steps), id)
    decreases |steps|
  {
    if steps != [] {
      StepKeeps(s, steps[0]);
      StepCannot(s, steps[0], id);
      CannotRunEver(Next(s, steps[0]), steps[1..], id);
    }
  }

  /** A halt of any cord but the executing one ends it: it can run in no run
      from there. A cord cannot halt itself. */
  lemma HaltedNeverRuns(s: State, id: nat)
    requires Inv(s) && Enabled(s, Halt(id)) && id < s.count
    ensures (forall steps :: Allowed(HaltCord(s, id), steps) ==> CannotRun(After(HaltCord(s, id), steps), id))
            <==> Executing(s.exec, id) == 0
  {
    var t := HaltCord(s, id);
    HaltKeeps(s, id);
    if Executing(s.exec, id) == 0 {
      HaltedCannot(s, id);
      forall steps | Allowed(t, steps) ensures CannotRun(After(t, steps), id) {
        CannotRunEver(t, steps, id);
      }
    } else {
      assert Allowed(t, []) && !CannotRun(After(t, []), id);
    }
  }

  lemma HaltedCannot(s: State, id: nat)
    requires Inv(s) && Enabled(s, Halt(id)) && id < s.count && Executing(s.exec, id) == 0
    ensures CannotRun(HaltCord(s, id), id)
  {
    var k, l := Find(s.runable, id), Find(s.blocked, id);
    assert Places(s, id) == 1;
    if k < |s.runable| {
      OccRemove(s.runable, k, id);
    } else {
      NotThere(s.runable, id);
      if l < |s.blocked| {
        OccRemove(s.blocked, l, id);
      } else {
        NotThere(s.blocked, id);
      }
    }
  }

  lemma NotThere(cs: seq<Cord>, id: nat)
    requires Find(cs, id) == |cs|
    ensures Occ(cs, id) == 0
  {
    Somewhere(cs, id);
    forall k | k in cs ensures k.id != id {
      var i :| 0 <= i < |cs| && cs[i] == k;
    }
  }

  /** A runnable or blocked cord that is halted is a zombie, until a resumed
      context destroys it. */
  lemma HaltedIsZombie(s: State, p: Place, k: nat)
    requires Inv(s) && (s.exec.Setup? || s.exec.Running?) && p != AsZombie && k < |CordsAt(s, p)|
    ensures var id := CordsAt(s, p)[k].id; Occ(HaltCord(s, id).zombies, id) == 1
  {
    var c := CordsAt(s, p)[k];
    OnlyThere(s, p, k);
    NotAt(s, if p == AsRunable then AsBlocked else AsRunable, c.id);
    OccSnoc(s.zombies, c, c.id);
    HaltKeeps(s, c.id);
    assert Places(HaltCord(s, c.id), c.id) == 1;
  }

  lemma NotAt(s: State, p: Place, id: nat)
    requires forall j :: 0 <= j < |CordsAt(s, p)| ==> CordsAt(s, p)[j].id != id
    ensures Find(CordsAt(s, p), id) == |CordsAt(s, p)|
  {
  }

  /** A cord that exits never goes on. */
  lemma ExitedNeverRuns(s: State, steps: seq<Step>)
    requires Inv(s) && s.exec.Running? && Allowed(Next(s, Exit), steps)
    ensures CannotRun(After(Next(s, Exit), steps), s.exec.cord.id)
  {
    var id := s.exec.cord.id;
    assert Places(s, id) <= 1 && id < s.count;
    StepKeeps(s, Exit);
    DispatchCannot(s.(zombies := s.zombies + [s.exec.cord]), id);
    CannotRunEver(Next(s, Exit), steps, id);
  }

  /** A stop destroys every runnable cord and the executing one, and
      `braidstart` goes on at once; only the blocked cords are left. */
  lemma StopEnds(s: State, id: nat)
    requires Inv(s) && s.exec.Running?
    ensures var t := Next(s, Stop);
            && t.exec.Returning? && t.runable == [] && t.zombies == [] && t.blocked == s.blocked
            && (id < s.count && Occ(s.blocked, id) == 0 ==> TimesFreed(t.log, id) == 1)
  {
    StepKeeps(s, Stop);
    assert Places(Next(s, Stop), id) == Occ(s.blocked, id) + TimesFreed(Next(s, Stop).log, id);
  }

  /** After a switch no zombie is left, unless a cord runs for the first time:
      it starts outside `schedule`, and the zombies stay for the next one. */
  lemma SwitchReaps(s: State, step: Step, id: nat)
    requires Inv(s) && Enabled(s, step) && Switches(step)
    ensures var t := Next(s, step);
            if t.exec.Running? && t.exec.cord.at.Entry? then t.zombies == Suspended(s, step).zombies
            else t.zombies == [] && (Occ(Suspended(s, step).zombies, id) == 1 ==> TimesFreed(t.log, id) == 1)
  {
    SuspendedKeeps(s, step);
    var u, t := Suspended(s, step), Next(s, step);
    StepKeeps(s, step);
    assert Places(u, id) <= 1 && Places(t, id) <= 1;
    if t.zombies == [] && Occ(u.zombies, id) == 1 {
      DispatchCannot(u, id);
    }
  }

  /** `braidstart` goes on only when nothing is runnable, or when nothing but
      system cords is and nothing is blocked. */
  lemma ReturnsOnlyWhenIdle(steps: seq<Step>)
    requires Allowed(Init(), steps) && After(Init(), steps).exec.Returning?
    ensures var t := After(Init(), steps);
            t.runable == [] || (t.blocked == [] && forall k :: 0 <= k < |t.runable| ==> t.runable[k].system)
  {
    RunKeeps(Init(), steps);
    var t := After(Init(), steps);
    forall k | 0 <= k < |t.runable| && Cnt(t.runable) == 0 ensures t.runable[k].system {
      if !t.runable[k].system {
        CntPositive(t.runable, k);
      }
    }
  }

  /** At a switch, `braidstart` goes on if and only if nothing is runnable, or
      nothing but system cords is and nothing is blocked. */
  lemma ReturnsIffIdle(s: State, step: Step)
    requires Inv(s) && Enabled(s, step) && Switches(step)
    ensures var u := Suspended(s, step);
            Next(s, step).exec.Returning?
            <==> u.runable == [] || (u.blocked == [] && forall k :: 0 <= k < |u.runable| ==> u.runable[k].system)
  {
    var u := Suspended(s, step);
    SuspendedKeeps(s, step);
    DispatchSets(u);
    CntIs(u.runable);
  }

  // ---------------------------------------------------------------------
  // What becomes of the cords
  // ---------------------------------------------------------------------

  /** A new cord comes last, with the next id and as it was asked for. */
  lemma AddedLast(s: State, system: bool)
    requires Inv(s) && Enabled(s, Add(system))
    ensures Next(s, Add(system))
            == s.(runable := s.runable + [Cord(s.count, system, 0, Entry)], count := s.count + 1)
  {
    NextIdIsCount(s);
  }

  /** A cord that yields stays runnable, or goes on at once; nothing becomes
      blocked. */
  lemma YieldsOnly(s: State)
    requires Inv(s) && s.exec.Running?
    ensures var t, k := Next(s, Yield), s.exec.cord.(at := AfterYield);
            (k in t.runable || t.exec == Running(k)) && t.blocked == s.blocked
  {
    var u := Suspended(s, Yield);
    SuspendedKeeps(s, Yield);
    DispatchSets(u);
    assert u.runable[|s.runable|] == s.exec.cord.(at := AfterYield);
    if |s.runable| > 0 {
      assert u.runable[1..][|s.runable| - 1] == s.exec.cord.(at := AfterYield);
    }
  }

  /** A cord that blocks comes last among the blocked ones, and no other does. */
  lemma BlocksOnly(s: State, why: Why)
    requires Inv(s) && s.exec.Running?
    ensures var t := Next(s, Block(why));
            && t.blocked == s.blocked + [s.exec.cord.(at := AfterBlock(why))]
            && forall k :: k in t.runable ==> k in s.runable
  {
    SuspendedKeeps(s, Block(why));
    DispatchSets(Suspended(s, Block(why)));
  }

  /** A cord that exits is a zombie after the others, which a cord that starts
      leaves there, and any other context destroys in order. */
  lemma ExitsOnly(s: State)
    requires Inv(s) && s.exec.Running?
    ensures var t, z := Next(s, Exit), s.zombies + [s.exec.cord];
            && t.blocked == s.blocked && (forall k :: k in t.runable ==> k in s.runable)
            && if t.exec.Running? && t.exec.cord.at.Entry? then t.zombies == z && t.log == s.log
               else
                 && t.zombies == [] && |s.log| + |z| <= |t.log|
                 && (forall i :: 0 <= i < |z| ==> t.log[|s.log| + i] == Freed(z[i].id, Executor(t.exec)))
  {
    hide Resume, Cnt, Inv;
    var u := s.(zombies := s.zombies + [s.exec.cord]);
    if HasNext(u) {
      ReapLog(u.(exec := Running(u.runable[0]), runable := u.runable[1..]));
    } else {
      ReapLog(u.(exec := Returning));
    }
  }

  /** What a context that goes on does to the zombies and the log. */
  lemma ReapLog(s: State)
    ensures var t := Resume(s);
            && t.exec == s.exec && t.blocked == s.blocked && t.runable == s.runable
            && if s.exec.Running? && s.exec.cord.at.Entry? then t.zombies == s.zombies && t.log == s.log
               else
                 && t.zombies == [] && |s.log| + |s.zombies| <= |t.log|
                 && (forall i :: 0 <= i < |s.zombies| ==>
                       t.log[|s.log| + i] == Freed(s.zombies[i].id, Executor(s.exec)))
  {
  }

  /** A wake-up moves the blocked cord with the id behind the runnable ones, with
      the value, and leaves all others where they are; without such a cord it
      does nothing. */
  lemma WakesOnly(s: State, id: nat, val: nat)
    requires Inv(s) && Enabled(s, Unblock(id, val))
    ensures var t := Next(s, Unblock(id, val));
            && (forall k :: k in s.blocked && k.id == id ==>
                  t.runable == s.runable + [k.(val := val)] && t.log == s.log + [Woken(id, val)])
            && (forall k :: k in t.blocked <==> k in s.blocked && k.id != id)
            && ((forall k :: k in s.blocked ==> k.id != id) ==> t == s)
            && t.exec == s.exec && t.zombies == s.zombies
  {
    WakeSets(s, id, val);
    forall k | k in s.blocked && k.id == id
      ensures Next(s, Unblock(id, val)).runable == s.runable + [k.(val := val)]
    {
      var i :| 0 <= i < |s.blocked| && s.blocked[i] == k;
      OnlyThere(s, AsBlocked, i);
      assert CordsAt(s, AsBlocked)[i] == k;
    }
  }

  /** A halt moves the runnable or blocked cord with the id to the zombies, and
      leaves all others where they are. */
  lemma HaltsOnly(s: State, id: nat)
    requires Inv(s) && Enabled(s, Halt(id))
    ensures var t := Next(s, Halt(id));
            && (forall k :: k in t.runable <==> k in s.runable && k.id != id)
            && (forall k :: k in t.blocked <==> k in s.blocked && k.id != id)
            && (forall k :: (k in s.runable || k in s.blocked) && k.id == id ==> t.zombies == s.zombies + [k])
            && ((forall k :: k in s.runable || k in s.blocked ==> k.id != id) ==> t == s)
            && t.exec == s.exec && t.log == s.log && t.count == s.count
  {
    var k, l := Find(s.runable, id), Find(s.blocked, id);
    if k < |s.runable| {
      TakenAway(s, AsRunable, k);
      NotHere(s, AsBlocked, AsRunable, k);
    } else if l < |s.blocked| {
      TakenAway(s, AsBlocked, l);
    }
  }

  /** What is left of a set without one of its cords. */
  lemma TakenAway(s: State, p: Place, k: nat)
    requires Inv(s) && k < |CordsAt(s, p)|
    ensures forall c :: c in Remove(CordsAt(s, p), k) <==> c in CordsAt(s, p) && c.id != CordsAt(s, p)[k].id
    ensures forall c :: c in CordsAt(s, p) && c.id == CordsAt(s, p)[k].id ==> c == CordsAt(s, p)[k]
  {
    hide Counted, CordsAt;
    OnlyThere(s, p, k);
    RemoveIs(CordsAt(s, p), k);
  }

  lemma RemoveIs(cs: seq<Cord>, k: nat)
    requires k < |cs| && forall j :: 0 <= j < |cs| && j != k ==> cs[j].id != cs[k].id
    ensures forall c :: c in Remove(cs, k) <==> c in cs && c.id != cs[k].id
    ensures forall c :: c in cs && c.id == cs[k].id ==> c == cs[k]
  {
    forall c | c in cs && c.id != cs[k].id ensures c in Remove(cs, k) {
      var i :| 0 <= i < |cs| && cs[i] == c;
      assert Remove(cs, k)[if i < k then i else i - 1] == c;
    }
    forall i | 0 <= i < |Remove(cs, k)| ensures Remove(cs, k)[i] in cs && Remove(cs, k)[i].id != cs[k].id {
      assert Remove(cs, k)[i] == cs[if i < k then i else i + 1];
    }
  }

  lemma NotHere(s: State, q: Place, p: Place, k: nat)
    requires Inv(s) && p != q && k < |CordsAt(s, p)|
    ensures forall c :: c in CordsAt(s, q) ==> c.id != CordsAt(s, p)[k].id
  {
    OnlyThere(s, p, k);
  }

  // ---------------------------------------------------------------------
  // Bounded waiting
  // ---------------------------------------------------------------------

  predicate SchedulingPoint(step: Step) {
    step.Start? || step.Yield? || step.Block? || step.Exit?
  }

  /** How often `steps` enters the scheduler. */
  function Points(steps: seq<Step>): nat {
    if steps == [] then 0 else (if SchedulingPoint(steps[0]) then 1 else 0) + Points(steps[1..])
  }

  /** Neither a halt of the cord nor a stop of the braid. */
  predicate Spares(steps: seq<Step>, id: nat) {
    forall k :: 0 <= k < |steps| ==> steps[k] != Halt(id) && !steps[k].Stop?
  }

  /** The cord gets to run, within `points` scheduling points, and `braidstart`
      does not return before. */
  predicate RunsWithin(s: State, steps: seq<Step>, id: nat, points: int)
    requires Allowed(s, steps)
    decreases |steps|
  {
    && steps != []
    && !s.exec.Returning?
    && var t := Next(s, steps[0]);
       var left := points - if SchedulingPoint(steps[0]) then 1 else 0;
       && left >= 0
       && (Executing(t.exec, id) == 1 || RunsWithin(t, steps[1..], id, left))
  }

  lemma CntPositive(cs: seq<Cord>, k: nat)
    requires k < |cs| && !cs[k].system
    ensures Cnt(cs) > 0
  {
    if k > 0 {
      CntPositive(cs[1..], k - 1);
    }
  }

  /** Whether the cord keeps the braid busy: it is a normal one, or some cord is
      blocked. */
  predicate Busy(s: State, k: nat)
    requires k < |s.runable|
  {
    !s.runable[k].system || s.blocked != []
  }

  lemma BusyHasNext(s: State, k: nat)
    requires k < |s.runable| && Busy(s, k)
    ensures HasNext(s)
  {
    if !s.runable[k].system {
      CntPositive(s.runable, k);
    }
  }

  /** At every step but its own turn, a normal cord, and a system cord while
      others are blocked, keeps its place or moves up, by one at a scheduling
      point. */
  lemma MovesUp(s: State, step: Step, id: nat, k: nat)
    requires Inv(s) && Enabled(s, step) && step != Halt(id) && !step.Stop?
    requires k < |s.runable| && s.runable[k].id == id && Busy(s, k)
    ensures var t := Next(s, step);
            if SchedulingPoint(step) then
              if k == 0 then Executing(t.exec, id) == 1
              else k - 1 < |t.runable| && t.runable[k - 1] == s.runable[k]
            else exists j :: 0 <= j <= k && j < |t.runable| && t.runable[j] == s.runable[k]
  {
    BusyHasNext(s, k);
    var t := Next(s, step);
    match step
    case Start => DispatchSets(s);
    case Yield =>
      var u := Suspended(s, step);
      assert u.runable[k] == s.runable[k];
      BusyHasNext(u, k);
      SwitchMoves(s, step);
    case Block(_) => SwitchMoves(s, step);
    case Exit =>
      BusyHasNext(Suspended(s, step), k);
      SwitchMoves(s, step);
    case Halt(other) =>
      var l := Find(s.runable, other);
      if l < k {
        assert t.runable[k - 1] == s.runable[k];
      } else {
        assert t.runable[k] == s.runable[k];
      }
    case Add(_) => assert t.runable[k] == s.runable[k];
    case Unblock(_, _) => assert t.runable[k] == s.runable[k];
    case _ =>
  }

  /** Whoever is first runs next. */
  lemma SwitchMoves(s: State, step: Step)
    requires Inv(s) && Enabled(s, step) && Switches(step)
    ensures var u, t := Suspended(s, step), Next(s, step);
            HasNext(u) ==> t.exec == Running(u.runable[0]) && t.runable == u.runable[1..]
  {
    SuspendedKeeps(s, step);
    DispatchSets(Suspended(s, step));
  }

  lemma NotReturning(s: State, k: nat)
    requires Inv(s) && k < |s.runable| && !s.runable[k].system
    ensures !s.exec.Returning?
  {
    CntPositive(s.runable, k);
  }

  /** A normal cord at position `k` of the runnable cords runs within `k + 1`
      scheduling points, unless it is halted or the braid is stopped. */
  lemma {:induction false} BoundedWait(s: State, steps: seq<Step>, id: nat, k: nat)
    requires Inv(s) && Allowed(s, steps) && Spares(steps, id)
    requires k < |s.runable| && s.runable[k].id == id && !s.runable[k].system
    requires Points(steps) >= k + 1
    ensures RunsWithin(s, steps, id, k + 1)
    decreases |steps|
  {
    hide Inv, Next, Enabled;
    var step := steps[0];
    var t := Next(s, step);
    NotReturning(s, k);
    StepKeeps(s, step);
    MovesUp(s, step, id, k);
    assert Spares(steps[1..], id);
    if SchedulingPoint(step) {
      if k > 0 {
        BoundedWait(t, steps[1..], id, k - 1);
      }
    } else if Executing(t.exec, id) == 0 {
      var j :| 0 <= j <= k && j < |t.runable| && t.runable[j] == s.runable[k];
      BoundedWait(t, steps[1..], id, j);
      RunsWithinMore(t, steps[1..], id, j + 1, k + 1);
    }
  }

  lemma {:induction false} RunsWithinMore(s: State, steps: seq<Step>, id: nat, points: int, more: int)
    requires Allowed(s, steps) && RunsWithin(s, steps, id, points) && points <= more
    ensures RunsWithin(s, steps, id, more)
    decreases |steps|
  {
    var t := Next(s, steps[0]);
    if Executing(t.exec, id) != 1 {
      var d := if SchedulingPoint(steps[0]) then 1 else 0;
      RunsWithinMore(t, steps[1..], id, points - d, more - d);
    }
  }

  // ---------------------------------------------------------------------
  // The values of braidblock
  // ---------------------------------------------------------------------

  /** The values of the successful wake-ups of the cord, in order. */
  function WokenVals(log: seq<Event>, id: nat): seq<nat> {
    if log == [] then []
    else
      var n := |log| - 1;
      WokenVals(log[..n], id) + if log[n].Woken? && log[n].id == id then [log[n].val] else []
  }

  /** The values that `braidblock` returned in the cord, in order. */
  function ReturnedVals(log: seq<Event>, id: nat): seq<nat> {
    if log == [] then []
    else
      var n := |log| - 1;
      ReturnedVals(log[..n], id) + if log[n].Returned? && log[n].id == id then [log[n].val] else []
  }

  lemma ValsSnoc(log: seq<Event>, e: Event, id: nat)
    ensures WokenVals(log + [e], id) == WokenVals(log, id) + if e.Woken? && e.id == id then [e.val] else []
    ensures ReturnedVals(log + [e], id) == ReturnedVals(log, id) + if e.Returned? && e.id == id then [e.val] else []
  {
    assert (log + [e])[..|log|] == log;
  }

  lemma {:induction false} ValsFree(log: seq<Event>, cs: seq<Cord>, who: Option<nat>, id: nat)
    ensures WokenVals(log + FreeAll(cs, who), id) == WokenVals(log, id)
    ensures ReturnedVals(log + FreeAll(cs, who), id) == ReturnedVals(log, id)
    decreases |cs|
  {
    if cs == [] {
      assert log + FreeAll(cs, who) == log;
    } else {
      var n := |cs| - 1;
      ValsFree(log, cs[..n], who, id);
      assert FreeAll(cs, who) == FreeAll(cs[..n], who) + [Freed(cs[n].id, who)];
      assert log + FreeAll(cs, who) == (log + FreeAll(cs[..n], who)) + [Freed(cs[n].id, who)];
      ValsSnoc(log + FreeAll(cs[..n], who), Freed(cs[n].id, who), id);
    }
  }

  /** The wake-up that a runnable cord has not seen yet. */
  function InFlight(c: Cord): seq<nat> {
    if c.at.AfterBlock? then [c.val] else []
  }

  /** `W` and `R` are the cord's wake-ups and returns. */
  ghost predicate InStep(s: State, id: nat, W: seq<nat>, R: seq<nat>) {
    && (W == R || (|W| == |R| + 1 && W[..|R|] == R))
    && (id >= s.count ==> W == R)
    && (Executing(s.exec, id) == 1 ==> W == R)
    && (forall k :: 0 <= k < |s.blocked| && s.blocked[k].id == id ==> W == R && s.blocked[k].at.AfterBlock?)
    && (forall k :: 0 <= k < |s.runable| && s.runable[k].id == id ==> W == R + InFlight(s.runable[k]))
  }

  /** The cord that is about to go on has seen all its wake-ups but the one in
      flight. */
  lemma ResumeDelivers(s: State, id: nat)
    requires Counted(s) && s.exec.Running?
    requires var W, R := WokenVals(s.log, id), ReturnedVals(s.log, id);
             if s.exec.cord.id == id then W == R + InFlight(s.exec.cord) else InStep(s, id, W, R)
    ensures var t := Resume(s); InStep(t, id, WokenVals(t.log, id), ReturnedVals(t.log, id))
  {
    hide WokenVals, ReturnedVals;
    var c := s.exec.cord;
    ValsFree(s.log, s.zombies, Executor(s.exec), id);
    ValsSnoc(Reap(s).log, Returned(c.id, c.val), id);
    Alone(s, s.runable);
    Alone(s, s.blocked);
    assert Places(s, c.id) <= 1 && c.id < s.count;
  }

  lemma DispatchDelivers(s: State, id: nat)
    requires Counted(s.(exec := Returning))
    requires InStep(s.(exec := Returning), id, WokenVals(s.log, id), ReturnedVals(s.log, id))
    ensures var t := Dispatch(s); InStep(t, id, WokenVals(t.log, id), ReturnedVals(t.log, id))
  {
    if HasNext(s) {
      var t := s.(exec := Running(s.runable[0]), runable := s.runable[1..]);
      forall i: nat ensures Places(t, i) == Places(s.(exec := Returning), i) {
      }
      ResumeDelivers(t, id);
    } else {
      ValsFree(s.log, s.zombies, None, id);
    }
  }

  lemma WakeDelivers(s: State, woken: nat, val: nat, id: nat)
    requires Inv(s) && InStep(s, id, WokenVals(s.log, id), ReturnedVals(s.log, id))
    ensures var t := Wake(s, woken, val); InStep(t, id, WokenVals(t.log, id), ReturnedVals(t.log, id))
  {
    var k := Find(s.blocked, woken);
    if k < |s.blocked| {
      ValsSnoc(s.log, Woken(woken, val), id);
      OnlyThere(s, AsBlocked, k);
      assert CordsAt(s, AsRunable) == s.runable;
    }
  }

  lemma StepDelivers(s: State, step: Step, id: nat)
    requires Inv(s) && Enabled(s, step)
    requires InStep(s, id, WokenVals(s.log, id), ReturnedVals(s.log, id))
    ensures var t := Next(s, step); InStep(t, id, WokenVals(t.log, id), ReturnedVals(t.log, id))
  {
    hide WokenVals, ReturnedVals;
    match step
    case Add(_) => NextIdIsCount(s);
    case Start =>
      forall i: nat ensures Places(s.(exec := Returning), i) == Places(s, i) {
      }
      DispatchDelivers(s, id);
    case Yield =>
      var c := s.exec.cord.(at := AfterYield);
      SuspendCounted(s, c, s.(runable := s.runable + [c]));
      DispatchDelivers(s.(runable := s.runable + [c]), id);
    case Block(why) =>
      var c := s.exec.cord.(at := AfterBlock(why));
      SuspendCounted(s, c, s.(blocked := s.blocked + [c]));
      DispatchDelivers(s.(blocked := s.blocked + [c]), id);
    case Unblock(woken, val) => WakeDelivers(s, woken, val, id);
    case Exit =>
      SuspendCounted(s, s.exec.cord, s.(zombies := s.zombies + [s.exec.cord]));
      DispatchDelivers(s.(zombies := s.zombies + [s.exec.cord]), id);
    case Stop =>
      StoppedCounted(s);
      ValsFree(s.log, s.runable, Executor(s.exec), id);
      DispatchDelivers(Stopped(s), id);
    case Halt(_) =>
    case Finish =>
      ValsFree(s.log, s.runable, None, id);
      ValsFree(s.log + FreeAll(s.runable, None), s.blocked, None, id);
  }

  lemma {:induction false} RunDelivers(s: State, steps: seq<Step>, id: nat)
    requires Inv(s) && Allowed(s, steps)
    requires InStep(s, id, WokenVals(s.log, id), ReturnedVals(s.log, id))
    ensures var t := After(s, steps); InStep(t, id, WokenVals(t.log, id), ReturnedVals(t.log, id))
    decreases |steps|
  {
    if steps != [] {
      StepKeeps(s, steps[0]);
      StepDelivers(s, steps[0], id);
      RunDelivers(Next(s, steps[0]), steps[1..], id);
    }
  }

  /** The k-th `braidblock` of a cord returns the value of the k-th successful
      `braidunblock` of it; at most one wake-up is under way. */
  lemma KthReturnIsKthWake(steps: seq<Step>, id: nat, k: nat)
    requires Allowed(Init(), steps)
    requires k < |ReturnedVals(After(Init(), steps).log, id)|
    ensures var log := After(Init(), steps).log;
            && |ReturnedVals(log, id)| <= |WokenVals(log, id)| <= |ReturnedVals(log, id)| + 1
            && ReturnedVals(log, id)[k] == WokenVals(log, id)[k]
  {
    var t := After(Init(), steps);
    RunDelivers(Init(), steps, id);
    var W, R := WokenVals(t.log, id), ReturnedVals(t.log, id);
    if W != R {
      assert W[..|R|][k] == R[k];
    }
  }
}
