/** The cooperative scheduler of braid.c as a state machine: one step for each
    call of its interface, up to the point where the next context runs. */
module Sched {

  // ---------------------------------------------------------------------
  // State
  // ---------------------------------------------------------------------

  /** What a cord waits for inside `braidblock`: for its element of a channel, a
      file descriptor, work for the visor, or something else. */
  datatype Why = Plain | OnSend(ch: nat, elt: nat) | OnRecv(ch: nat, elt: nat) | OnFd | OnPoll

  /** Where a suspended cord continues: at its entry point, or inside the
      `schedule` that `braidyield` or `braidblock` called. */
  datatype Point = Entry | AfterYield | AfterBlock(why: Why)

  datatype Cord = Cord(id: nat, system: bool, val: nat, at: Point)

  /** The executing context: the caller of `braidstart` before, while a cord
      runs, on the way out of `braidstart`, and after it. */
  datatype Exec = Setup | Running(cord: Cord) | Returning | Finished

  /** What happened, in order: a cord destroyed by `who` executes (the
      caller of `braidstart` has no id), woken, or back from `braidblock`. */
  datatype Event =
    | Freed(id: nat, who: Option<nat>)
    | Woken(id: nat, val: nat)
    | Returned(id: nat, val: nat)

  datatype Option<T> = None | Some(value: T)

  datatype State = State(exec: Exec, runable: seq<Cord>, blocked: seq<Cord>, zombies: seq<Cord>,
                         count: nat, log: seq<Event>)

  function Init(): State {
    State(Setup, [], [], [], 0, [])
  }

  function Executor(e: Exec): Option<nat> {
    if e.Running? then Some(e.cord.id) else None
  }

  // ---------------------------------------------------------------------
  // Sets of cords
  // ---------------------------------------------------------------------

  function Ids(cs: seq<Cord>): (r: seq<nat>)
    ensures |r| == |cs|
    ensures forall k :: 0 <= k < |cs| ==> r[k] == cs[k].id
  {
    seq(|cs|, k requires 0 <= k < |cs| => cs[k].id)
  }

  /** The position of `id`, or the length when it is not there. */
  function Find(cs: seq<Cord>, id: nat): (k: nat)
    ensures k <= |cs|
    ensures k < |cs| ==> cs[k].id == id
    ensures forall j :: 0 <= j < k ==> cs[j].id != id
  {
    if cs == [] || cs[0].id == id then 0 else 1 + Find(cs[1..], id)
  }

  function Remove(cs: seq<Cord>, k: nat): seq<Cord>
    requires k < |cs|
  {
    cs[..k] + cs[k + 1..]
  }

  /** The cords that are not system cords. */
  function Cnt(cs: seq<Cord>): nat {
    if cs == [] then 0 else (if cs[0].system then 0 else 1) + Cnt(cs[1..])
  }

  lemma {:induction false} CntIs(cs: seq<Cord>)
    ensures Cnt(cs) == 0 <==> forall k :: 0 <= k < |cs| ==> cs[k].system
  {
    if cs != [] {
      CntIs(cs[1..]);
      forall k | 0 < k < |cs| ensures cs[k] == cs[1..][k - 1] {
      }
    }
  }

  function FreeAll(cs: seq<Cord>, who: Option<nat>): (es: seq<Event>)
    ensures |es| == |cs|
    ensures forall k :: 0 <= k < |cs| ==> es[k] == Freed(cs[k].id, who)
  {
    seq(|cs|, k requires 0 <= k < |cs| => Freed(cs[k].id, who))
  }

  datatype Place = AsRunable | AsBlocked | AsZombie

  function CordsAt(s: State, p: Place): seq<Cord> {
    match p
    case AsRunable => s.runable
    case AsBlocked => s.blocked
    case AsZombie => s.zombies
  }

  function WithCords(s: State, p: Place, cs: seq<Cord>): State {
    match p
    case AsRunable => s.(runable := cs)
    case AsBlocked => s.(blocked := cs)
    case AsZombie => s.(zombies := cs)
  }

  /** All cords of a set are destroyed, in order. */
  function FreeSet(s: State, p: Place, who: Option<nat>): State {
    WithCords(s, p, []).(log := s.log + FreeAll(CordsAt(s, p), who))
  }

  // ---------------------------------------------------------------------
  // Steps
  // ---------------------------------------------------------------------

  datatype Step =
    | Add(system: bool)
    | Start
    | Yield
    | Block(why: Why)
    | Unblock(id: nat, val: nat)
    | Exit
    | Stop
    | Halt(id: nat)
    | Finish

  ghost function IdsFrom(cs: seq<Cord>, count: nat): set<nat> {
    set id | id in Ids(cs) && id >= count
  }

  /** The first id from `count` on that no runnable cord has. */
  function NextId(cs: seq<Cord>, count: nat): (id: nat)
    ensures id >= count && Find(cs, id) == |cs|
    ensures forall k :: count <= k < id ==> Find(cs, k) < |cs|
    decreases IdsFrom(cs, count)
  {
    if Find(cs, count) == |cs| then count
    else
      assert Ids(cs)[Find(cs, count)] == count;
      assert count in IdsFrom(cs, count) && count !in IdsFrom(cs, count + 1);
      NextId(cs, count + 1)
  }

  /** A resumed context destroys the zombies. */
  function Reap(s: State): State {
    FreeSet(s, AsZombie, Executor(s.exec))
  }

  /** A context goes on where it was suspended: a fresh cord at its entry
      point, any other in `schedule`, from where `braidblock` also returns. */
  function Resume(s: State): State {
    match s.exec
    case Running(c) =>
      if c.at.Entry? then s
      else if c.at.AfterYield? then Reap(s)
      else
        var t := Reap(s);
        t.(log := t.log + [Returned(c.id, c.val)])
    case _ => Reap(s)
  }

  /** The contest for the processor in `schedule`. */
  predicate HasNext(s: State) {
    (Cnt(s.runable) > 0 || |s.blocked| > 0) && s.runable != []
  }

  function Dispatch(s: State): State {
    if HasNext(s) then
      Resume(s.(exec := Running(s.runable[0]), runable := s.runable[1..]))
    else
      Resume(s.(exec := Returning))
  }

  predicate Enabled(s: State, step: Step) {
    match step
    case Add(_) => s.exec.Setup? || s.exec.Running?
    case Unblock(_, _) => s.exec.Setup? || s.exec.Running?
    case Halt(_) => s.exec.Setup? || s.exec.Running?
    case Start => s.exec.Setup?
    case Finish => s.exec.Returning?
    case _ => s.exec.Running?
  }

  /** Whether a blocked cord has the id. */
  predicate IsBlocked(s: State, id: nat) {
    Find(s.blocked, id) < |s.blocked|
  }

  /** Whether `getcord` finds the cord among the runnable or the blocked ones. */
  predicate Present(s: State, id: nat) {
    Find(s.runable, id) < |s.runable| || IsBlocked(s, id)
  }

  lemma BlockedIs(s: State, id: nat)
    ensures IsBlocked(s, id) <==> exists k :: k in s.blocked && k.id == id
    ensures Present(s, id) <==> exists k :: (k in s.runable || k in s.blocked) && k.id == id
  {
    if IsBlocked(s, id) {
      assert s.blocked[Find(s.blocked, id)].id == id;
    }
    if Find(s.runable, id) < |s.runable| {
      assert s.runable[Find(s.runable, id)].id == id;
    }
  }

  function Wake(s: State, id: nat, val: nat): State {
    var k := Find(s.blocked, id);
    if k < |s.blocked| then
      s.(blocked := Remove(s.blocked, k),
         runable := s.runable + [s.blocked[k].(val := val)],
         log := s.log + [Woken(id, val)])
    else s
  }

  function HaltCord(s: State, id: nat): State {
    var k, l := Find(s.runable, id), Find(s.blocked, id);
    if k < |s.runable| then
      s.(runable := Remove(s.runable, k), zombies := s.zombies + [s.runable[k]])
    else if l < |s.blocked| then
      s.(blocked := Remove(s.blocked, l), zombies := s.zombies + [s.blocked[l]])
    else s
  }

  /** A braid that is stopped: the runnable cords are destroyed, the executing
      one becomes a zombie. */
  function Stopped(s: State): State
    requires s.exec.Running?
  {
    var t := FreeSet(s, AsRunable, Executor(s.exec));
    t.(zombies := t.zombies + [s.exec.cord])
  }

  /** The end of `braidstart`: the cords left over are destroyed. */
  function Ended(s: State): State {
    FreeSet(FreeSet(s, AsRunable, None), AsBlocked, None).(exec := Finished)
  }

  function Next(s: State, step: Step): State
    requires Enabled(s, step)
  {
    match step
    case Add(system) =>
      var id := NextId(s.runable, s.count);
      s.(runable := s.runable + [Cord(id, system, 0, Entry)], count := id + 1)
    case Start => Dispatch(s)
    case Yield => Dispatch(s.(runable := s.runable + [s.exec.cord.(at := AfterYield)]))
    case Block(why) => Dispatch(s.(blocked := s.blocked + [s.exec.cord.(at := AfterBlock(why))]))
    case Unblock(id, val) => Wake(s, id, val)
    case Exit => Dispatch(s.(zombies := s.zombies + [s.exec.cord]))
    case Stop => Dispatch(Stopped(s))
    case Halt(id) => HaltCord(s, id)
    case Finish => Ended(s)
  }

  /** The steps that end in a switch to another context. */
  predicate Switches(step: Step) {
    step.Start? || step.Yield? || step.Block? || step.Exit? || step.Stop?
  }

  /** Before a switch: where the executing cord of `s` is put. */
  function Suspended(s: State, step: Step): State
    requires Enabled(s, step) && Switches(step)
  {
    match step
    case Yield => s.(exec := Returning, runable := s.runable + [s.exec.cord.(at := AfterYield)])
    case Block(why) => s.(exec := Returning, blocked := s.blocked + [s.exec.cord.(at := AfterBlock(why))])
    case Exit => s.(exec := Returning, zombies := s.zombies + [s.exec.cord])
    case Stop => Stopped(s).(exec := Returning)
    case _ => s.(exec := Returning)
  }

  // ---------------------------------------------------------------------
  // Runs
  // ---------------------------------------------------------------------

  predicate Allowed(s: State, steps: seq<Step>)
    decreases |steps|
  {
    steps == [] || (Enabled(s, steps[0]) && Allowed(Next(s, steps[0]), steps[1..]))
  }

  function After(s: State, steps: seq<Step>): State
    requires Allowed(s, steps)
    decreases |steps|
  {
    if steps == [] then s else After(Next(s, steps[0]), steps[1..])
  }

  // ---------------------------------------------------------------------
  // Census: where each cord is
  // ---------------------------------------------------------------------

  /** How many of the cords have the id. */
  function Occ(cs: seq<Cord>, id: nat): nat {
    if cs == [] then 0 else (if cs[0].id == id then 1 else 0) + Occ(cs[1..], id)
  }

  /** How often a cord with the id was destroyed. */
  function TimesFreed(log: seq<Event>, id: nat): nat {
    if log == [] then 0
    else (if log[0].Freed? && log[0].id == id then 1 else 0) + TimesFreed(log[1..], id)
  }

  predicate Destroyed(s: State, id: nat) {
    TimesFreed(s.log, id) > 0
  }

  function Executing(e: Exec, id: nat): nat {
    if e.Running? && e.cord.id == id then 1 else 0
  }

  /** In how many places a cord with the id is, destroyed ones included. */
  function Places(s: State, id: nat): nat {
    Executing(s.exec, id) + Occ(s.runable, id) + Occ(s.blocked, id) + Occ(s.zombies, id) + TimesFreed(s.log, id)
  }

  /** Each cord ever created is in exactly one place. */
  ghost predicate Counted(s: State) {
    forall id: nat :: Places(s, id) == if id < s.count then 1 else 0
  }

  /** No cord was destroyed by itself. */
  ghost predicate FreedByOthers(log: seq<Event>) {
    forall k :: 0 <= k < |log| && log[k].Freed? ==> log[k].who != Some(log[k].id)
  }

  ghost predicate Inv(s: State) {
    InvFacts(s) == true
  }

  ghost predicate InvFacts(s: State) {
    && Counted(s)
    && FreedByOthers(s.log)
    && (s.exec.Finished? ==> s.runable == [] && s.blocked == [])
    && (s.exec.Returning? || s.exec.Finished? ==> s.zombies == [])
    && (s.exec.Returning? ==> !HasNext(s))
    && (s.exec.Setup? ==> s.blocked == [] && s.log == [])
  }

  lemma InitInv()
    ensures Inv(Init())
  {
  }

  lemma {:induction false} OccAppend(a: seq<Cord>, b: seq<Cord>, id: nat)
    ensures Occ(a + b, id) == Occ(a, id) + Occ(b, id)
  {
    if a == [] {
      assert a + b == b;
    } else {
      OccAppend(a[1..], b, id);
      assert (a + b)[1..] == a[1..] + b;
    }
  }

  lemma OccSnoc(cs: seq<Cord>, c: Cord, id: nat)
    ensures Occ(cs + [c], id) == Occ(cs, id) + if c.id == id then 1 else 0
  {
    OccAppend(cs, [c], id);
    assert Occ([c], id) == (if c.id == id then 1 else 0) + Occ([c][1..], id);
  }

  lemma OccRemove(cs: seq<Cord>, k: nat, id: nat)
    requires k < |cs|
    ensures Occ(cs, id) == Occ(Remove(cs, k), id) + if cs[k].id == id then 1 else 0
  {
    assert cs == cs[..k] + cs[k..];
    OccAppend(cs[..k], cs[k..], id);
    OccAppend(cs[..k], cs[k + 1..], id);
    assert cs[k..][1..] == cs[k + 1..];
  }

  /** A cord that occurs is there. */
  lemma {:induction false} Somewhere(cs: seq<Cord>, id: nat)
    ensures Occ(cs, id) > 0 <==> exists k :: k in cs && k.id == id
  {
    if cs != [] {
      Somewhere(cs[1..], id);
      assert forall k :: k in cs <==> k == cs[0] || k in cs[1..];
    }
  }

  lemma {:induction false} TimesFreedAppend(a: seq<Event>, b: seq<Event>, id: nat)
    ensures TimesFreed(a + b, id) == TimesFreed(a, id) + TimesFreed(b, id)
  {
    if a == [] {
      assert a + b == b;
    } else {
      TimesFreedAppend(a[1..], b, id);
      assert (a + b)[1..] == a[1..] + b;
    }
  }

  lemma {:induction false} FreeAllOcc(cs: seq<Cord>, who: Option<nat>, id: nat)
    ensures TimesFreed(FreeAll(cs, who), id) == Occ(cs, id)
  {
    if cs != [] {
      FreeAllOcc(cs[1..], who, id);
      assert FreeAll(cs, who)[1..] == FreeAll(cs[1..], who);
    }
  }

  lemma FreeTimes(log: seq<Event>, cs: seq<Cord>, who: Option<nat>, id: nat)
    ensures TimesFreed(log + FreeAll(cs, who), id) == TimesFreed(log, id) + Occ(cs, id)
  {
    TimesFreedAppend(log, FreeAll(cs, who), id);
    FreeAllOcc(cs, who, id);
  }

  lemma OtherTimes(log: seq<Event>, e: Event, id: nat)
    requires !e.Freed?
    ensures TimesFreed(log + [e], id) == TimesFreed(log, id)
  {
    TimesFreedAppend(log, [e], id);
    assert TimesFreed([e], id) == TimesFreed([e][1..], id);
  }

  // ---------------------------------------------------------------------
  // Every step keeps the census
  // ---------------------------------------------------------------------

  /** The executing cord is none of the others. */
  lemma Alone(s: State, cs: seq<Cord>)
    requires Counted(s) && s.exec.Running?
    requires cs == s.runable || cs == s.blocked || cs == s.zombies
    ensures forall k :: 0 <= k < |cs| ==> cs[k].id != s.exec.cord.id
  {
    forall k | 0 <= k < |cs| ensures cs[k].id != s.exec.cord.id {
      OccRemove(cs, k, cs[k].id);
      assert Places(s, cs[k].id) <= 1;
    }
  }

  function PlaceTotal(s: State, p: Place, id: nat): nat {
    Occ(CordsAt(s, p), id)
  }

  /** A cord in one place is in no other. */
  lemma OnlyThere(s: State, p: Place, k: nat)
    requires Counted(s) && k < |CordsAt(s, p)|
    ensures var id := CordsAt(s, p)[k].id;
            && id < s.count && Executing(s.exec, id) == 0 && TimesFreed(s.log, id) == 0
            && Find(CordsAt(s, p), id) == k
            && (forall j :: 0 <= j < |CordsAt(s, p)| && j != k ==> CordsAt(s, p)[j].id != id)
            && (forall q: Place, j :: q != p && 0 <= j < |CordsAt(s, q)| ==> CordsAt(s, q)[j].id != id)
  {
    var cs := CordsAt(s, p);
    var id := cs[k].id;
    OccRemove(cs, k, id);
    assert Places(s, id) == Executing(s.exec, id) + PlaceTotal(s, AsRunable, id) + PlaceTotal(s, AsBlocked, id)
                            + PlaceTotal(s, AsZombie, id) + TimesFreed(s.log, id);
    var rest := Remove(cs, k);
    Absent(rest, id);
    forall j | 0 <= j < |cs| && j != k ensures cs[j].id != id {
      assert cs[j] == rest[if j < k then j else j - 1];
    }
    assert Find(cs, id) == k;
    forall q: Place, j | q != p && 0 <= j < |CordsAt(s, q)| ensures CordsAt(s, q)[j].id != id {
      assert PlaceTotal(s, q, id) == 0;
      Absent(CordsAt(s, q), id);
    }
  }

  lemma Absent(cs: seq<Cord>, id: nat)
    requires Occ(cs, id) == 0
    ensures forall j :: 0 <= j < |cs| ==> cs[j].id != id
  {
    forall j | 0 <= j < |cs| ensures cs[j].id != id {
      OccRemove(cs, j, id);
    }
  }

  lemma FreeFirstCounted(s: State, p: Place, who: Option<nat>)
    requires Counted(s) && CordsAt(s, p) != []
    ensures Counted(WithCords(s, p, CordsAt(s, p)[1..]).(log := s.log + [Freed(CordsAt(s, p)[0].id, who)]))
  {
    var cs := CordsAt(s, p);
    var t := WithCords(s, p, cs[1..]).(log := s.log + [Freed(cs[0].id, who)]);
    forall id: nat ensures Places(t, id) == Places(s, id) {
      FreeTimes(s.log, cs[..1], who, id);
      assert FreeAll(cs[..1], who) == [Freed(cs[0].id, who)];
      OccAppend(cs[..1], cs[1..], id);
      assert cs == cs[..1] + cs[1..];
    }
  }

  lemma ReapKeeps(s: State)
    requires Counted(s) && FreedByOthers(s.log)
    ensures Counted(Reap(s)) && FreedByOthers(Reap(s).log)
  {
    forall id: nat ensures Places(Reap(s), id) == Places(s, id) {
      FreeTimes(s.log, s.zombies, Executor(s.exec), id);
    }
    if s.exec.Running? {
      Alone(s, s.zombies);
    }
  }

  lemma ResumeKeeps(s: State)
    requires Counted(s) && FreedByOthers(s.log)
    ensures Counted(Resume(s)) && FreedByOthers(Resume(s).log)
  {
    ReapKeeps(s);
    if s.exec.Running? {
      var t, e := Reap(s), Returned(s.exec.cord.id, s.exec.cord.val);
      forall id: nat ensures Places(t.(log := t.log + [e]), id) == Places(t, id) {
        OtherTimes(t.log, e, id);
      }
    }
  }

  /** Whoever goes on next: `s` without its executing cord counts all. */
  lemma DispatchKeeps(s: State)
    requires Counted(s.(exec := Returning)) && FreedByOthers(s.log)
    ensures Inv(Dispatch(s))
  {
    if HasNext(s) {
      var t := s.(exec := Running(s.runable[0]), runable := s.runable[1..]);
      forall id: nat ensures Places(t, id) == Places(s.(exec := Returning), id) {
      }
      ResumeKeeps(t);
    } else {
      ResumeKeeps(s.(exec := Returning));
    }
  }

  /** The executing cord joins other cords: `t` is what is left to dispatch. */
  ghost predicate Suspends(s: State, c: Cord, t: State) {
    && s.exec.Running? && c.id == s.exec.cord.id
    && (t == s.(runable := s.runable + [c]) || t == s.(blocked := s.blocked + [c])
        || t == s.(zombies := s.zombies + [c]))
  }

  lemma SuspendCounted(s: State, c: Cord, t: State)
    requires Counted(s) && Suspends(s, c, t)
    ensures Counted(t.(exec := Returning))
  {
    forall id: nat ensures Places(t.(exec := Returning), id) == Places(s, id) {
      OccSnoc(s.runable, c, id);
      OccSnoc(s.blocked, c, id);
      OccSnoc(s.zombies, c, id);
    }
  }

  lemma SuspendKeeps(s: State, c: Cord, t: State)
    requires Inv(s) && Suspends(s, c, t)
    ensures Inv(Dispatch(t))
  {
    SuspendCounted(s, c, t);
    DispatchKeeps(t);
  }

  lemma StoppedCounted(s: State)
    requires Counted(s) && s.exec.Running?
    ensures Counted(Stopped(s).(exec := Returning))
  {
    forall id: nat ensures Places(Stopped(s).(exec := Returning), id) == Places(s, id) {
      FreeTimes(s.log, s.runable, Executor(s.exec), id);
      OccSnoc(s.zombies, s.exec.cord, id);
    }
  }

  lemma WakeKeeps(s: State, id: nat, val: nat)
    requires Inv(s) && (s.exec.Setup? || s.exec.Running?)
    ensures Inv(Wake(s, id, val))
  {
    var k := Find(s.blocked, id);
    if k < |s.blocked| {
      var t := Wake(s, id, val);
      forall i: nat ensures Places(t, i) == Places(s, i) {
        OccRemove(s.blocked, k, i);
        OccSnoc(s.runable, s.blocked[k].(val := val), i);
        OtherTimes(s.log, Woken(id, val), i);
      }
    }
  }

  lemma HaltKeeps(s: State, id: nat)
    requires Inv(s) && (s.exec.Setup? || s.exec.Running?)
    ensures Inv(HaltCord(s, id))
  {
    var k, l := Find(s.runable, id), Find(s.blocked, id);
    forall i: nat ensures Places(HaltCord(s, id), i) == Places(s, i) {
      if k < |s.runable| {
        OccRemove(s.runable, k, i);
        OccSnoc(s.zombies, s.runable[k], i);
      } else if l < |s.blocked| {
        OccRemove(s.blocked, l, i);
        OccSnoc(s.zombies, s.blocked[l], i);
      }
    }
  }

  /** Ids are handed out in order: what the probe of the runnable cords finds
      is the next id, although cords elsewhere are not probed. */
  lemma NextIdIsCount(s: State)
    requires Inv(s)
    ensures NextId(s.runable, s.count) == s.count
  {
    assert Places(s, s.count) == 0;
    forall k | 0 <= k < |s.runable| ensures s.runable[k].id != s.count {
      OccRemove(s.runable, k, s.runable[k].id);
    }
  }

  lemma AddKeeps(s: State, system: bool)
    requires Inv(s) && Enabled(s, Add(system))
    ensures Inv(Next(s, Add(system)))
    ensures Next(s, Add(system)).count == s.count + 1
  {
    NextIdIsCount(s);
    forall id: nat ensures Places(Next(s, Add(system)), id) == Places(s, id) + if id == s.count then 1 else 0 {
      OccSnoc(s.runable, Cord(s.count, system, 0, Entry), id);
    }
  }

  lemma StopKeeps(s: State)
    requires Inv(s) && s.exec.Running?
    ensures Inv(Next(s, Stop))
  {
    StoppedCounted(s);
    Alone(s, s.runable);
    DispatchKeeps(Stopped(s));
  }

  lemma FinishKeeps(s: State)
    requires Inv(s) && s.exec.Returning?
    ensures Inv(Next(s, Finish))
  {
    forall id: nat ensures Places(Next(s, Finish), id) == Places(s, id) {
      FreeTimes(s.log, s.runable, None, id);
      FreeTimes(s.log + FreeAll(s.runable, None), s.blocked, None, id);
    }
  }

  lemma StepKeeps(s: State, step: Step)
    requires Inv(s) && Enabled(s, step)
    ensures Inv(Next(s, step))
  {
    match step
    case Add(system) => AddKeeps(s, system);
    case Start =>
      forall id: nat ensures Places(s.(exec := Returning), id) == Places(s, id) {
      }
      DispatchKeeps(s);
    case Yield =>
      var c := s.exec.cord.(at := AfterYield);
      SuspendKeeps(s, c, s.(runable := s.runable + [c]));
    case Block(why) =>
      var c := s.exec.cord.(at := AfterBlock(why));
      SuspendKeeps(s, c, s.(blocked := s.blocked + [c]));
    case Unblock(id, val) => WakeKeeps(s, id, val);
    case Exit => SuspendKeeps(s, s.exec.cord, s.(zombies := s.zombies + [s.exec.cord]));
    case Stop => StopKeeps(s);
    case Halt(id) => HaltKeeps(s, id);
    case Finish => FinishKeeps(s);
  }

  lemma {:induction false} RunKeeps(s: State, steps: seq<Step>)
    requires Inv(s) && Allowed(s, steps)
    ensures Inv(After(s, steps))
    decreases |steps|
  {
    if steps != [] {
      StepKeeps(s, steps[0]);
      RunKeeps(Next(s, steps[0]), steps[1..]);
    }
  }

  // ---------------------------------------------------------------------
  // Before and after a switch or a wake-up
  // ---------------------------------------------------------------------

  lemma DispatchSets(s: State)
    ensures var t := Dispatch(s);
            && t.blocked == s.blocked && t.count == s.count
            && if HasNext(s) then t.exec == Running(s.runable[0]) && t.runable == s.runable[1..]
               else t.exec == Returning && t.runable == s.runable
  {
  }

  lemma SuspendedKeeps(s: State, step: Step)
    requires Inv(s) && Enabled(s, step) && Switches(step)
    ensures Counted(Suspended(s, step)) && FreedByOthers(Suspended(s, step).log)
    ensures Next(s, step) == Dispatch(Suspended(s, step))
  {
    if step.Start? {
      forall id: nat ensures Places(s.(exec := Returning), id) == Places(s, id) {
      }
    }
    match step
    case Yield =>
      var k := s.exec.cord.(at := AfterYield);
      SuspendCounted(s, k, s.(runable := s.runable + [k]));
    case Block(why) =>
      var k := s.exec.cord.(at := AfterBlock(why));
      SuspendCounted(s, k, s.(blocked := s.blocked + [k]));
    case Exit => SuspendCounted(s, s.exec.cord, s.(zombies := s.zombies + [s.exec.cord]));
    case Stop =>
      StoppedCounted(s);
      Alone(s, s.runable);
    case _ =>
  }

  /** Where the cords are after a wake-up. */
  lemma WakeSets(s: State, id: nat, val: nat)
    requires Counted(s)
    ensures var t := Wake(s, id, val);
            && t.exec == s.exec && t.count == s.count
            && (forall k :: k in t.blocked <==> k in s.blocked && k.id != id)
            && (forall k :: k in t.runable <==>
                  k in s.runable || (k.id == id && k.val == val && exists b :: b in s.blocked && k == b.(val := val)))
  {
    var t, f := Wake(s, id, val), Find(s.blocked, id);
    if f < |s.blocked| {
      OnlyThere(s, AsBlocked, f);
      assert CordsAt(s, AsBlocked) == s.blocked;
      forall k | k in s.blocked && k.id != id ensures k in t.blocked {
        var i :| 0 <= i < |s.blocked| && s.blocked[i] == k;
        assert t.blocked[if i < f then i else i - 1] == k;
      }
    }
  }
}
