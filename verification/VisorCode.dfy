/** poll/visor.c and fdwait over a braid: each operation is the step of the
    state machine in `Visors` that it stands for. */
module VisorCode {
  import opened HashTables
  import opened CordSets
  import opened Sched
  import opened Braids
  import opened Visors

  /** The list without the first entry of the cord. */
  function RemoveFirst(es: seq<Waiter>, c: nat): seq<Waiter> {
    if es == [] then []
    else if es[0].cord == c then es[1..]
    else [es[0]] + RemoveFirst(es[1..], c)
  }

  lemma {:induction false} RemoveFirstAt(es: seq<Waiter>, c: nat, i: nat)
    requires i < |es| && es[i].cord == c && forall j :: 0 <= j < i ==> es[j].cord != c
    ensures RemoveFirst(es, c) == es[..i] + es[i + 1..]
  {
    if i > 0 {
      RemoveFirstAt(es[1..], c, i - 1);
      assert es[1..][..i - 1] == es[1..i] && es[1..][i..] == es[i + 1..];
    }
  }

  lemma {:induction false} RemoveFirstNone(es: seq<Waiter>, c: nat)
    requires forall j :: 0 <= j < |es| ==> es[j].cord != c
    ensures RemoveFirst(es, c) == es
  {
    if es != [] {
      RemoveFirstNone(es[1..], c);
    }
  }

  /** The list in the middle of a pass: `j` entries are seen. */
  ghost function Midway(es: seq<Waiter>, j: nat): seq<Waiter>
    requires j <= |es|
  {
    Unready(es[..j]) + es[j..]
  }

  lemma MidwayEnds(s: State, es: seq<Waiter>)
    ensures Midway(es, 0) == es && Midway(es, |es|) == Unready(es)
    ensures Unready(es[..0]) == [] && WakeReady(s, es[..0]) == s && es[..|es|] == es
  {
    UnreadyNone();
    hide Unready, WakeReady;
    assert es[..0] == [] && es[0..] == es && es[..|es|] == es && es[|es|..] == [];
  }

  lemma UnreadyNone()
    ensures Unready([]) == []
    ensures forall s :: WakeReady(s, []) == s
  {
  }

  lemma MidwayOn(es: seq<Waiter>, j: nat)
    requires j < |es| && forall a, b :: 0 <= a < b < |es| ==> es[a].cord != es[b].cord
    ensures var i := |Unready(es[..j])|;
            && i < |Midway(es, j)| && Midway(es, j)[i] == es[j]
            && |Midway(es, j + 1)| == |Unready(es[..j + 1])| + |es| - j - 1
            && |Unready(es[..j + 1])| == i + (if Ready(es[j].pfd) then 0 else 1)
            && Midway(es, j + 1) == if Ready(es[j].pfd) then RemoveFirst(Midway(es, j), es[j].cord) else Midway(es, j)
  {
    var i, m := |Unready(es[..j])|, Midway(es, j);
    assert es[..j + 1][..j] == es[..j];
    UnreadyIs(es[..j]);
    forall k | 0 <= k < i ensures m[k].cord != es[j].cord {
      assert m[k] in es[..j];
    }
    if Ready(es[j].pfd) {
      RemoveFirstAt(m, es[j].cord, i);
    }
  }

  lemma WakeReadyOn(s: State, es: seq<Waiter>, j: nat)
    requires j < |es|
    ensures var t := WakeReady(s, es[..j]);
            WakeReady(s, es[..j + 1]) == if Ready(es[j].pfd) then Wake(t, es[j].cord, AsVal(es[j].pfd.revents)) else t
  {
    assert es[..j + 1][..j] == es[..j];
  }

  function Zip(cs: seq<nat>, ps: seq<Pollfd>): (r: seq<Waiter>)
    requires |cs| == |ps|
    ensures |r| == |cs| && forall i :: 0 <= i < |cs| ==> r[i] == Waiter(cs[i], ps[i])
  {
    seq(|cs|, i requires 0 <= i < |cs| => Waiter(cs[i], ps[i]))
  }

  class Visor {
    const b: Braid
    /** The visor's cord, 0 until it first runs. */
    var cord: nat
    var cords: array<nat>
    var pfds: array<Pollfd>
    var cnt: nat
    var cap: nat
    var isBlocked: bool
    /** Whether the visor is between its two yields. */
    var again: bool

    /** The state of the machine; once the process has ended, or not found its
        memory, nothing is said of the fields. */
    ghost var spec: Vis

    ghost predicate Arrays()
      reads `cnt, `cap, `cords, `pfds
    {
      cnt <= cap == cords.Length == pfds.Length
    }

    /** Both arrays, entry by entry. */
    ghost function Entries(): (r: seq<Waiter>)
      requires Arrays()
      reads `cnt, `cap, `cords, `pfds, cords, pfds
      ensures |r| == cnt
      ensures forall i :: 0 <= i < cnt ==> r[i] == Waiter(cords[i], pfds[i])
    {
      Zip(cords[..cnt], pfds[..cnt])
    }

    ghost predicate Apart()
      reads this, b, b.sets
    {
      this !in b.sets.Objs && cords !in b.sets.Objs && pfds !in b.sets.Objs
    }

    /** The fields hold the state `v`, whatever the scheduler's. */
    ghost predicate Stores(v: Vis)
      reads `cord, `cords, `pfds, `cnt, `cap, `isBlocked, `again, cords, pfds
    {
      StoresFacts(v) == true
    }

    ghost predicate StoresFacts(v: Vis)
      reads `cord, `cords, `pfds, `cnt, `cap, `isBlocked, `again, cords, pfds
    {
      && Arrays() && Entries() == v.entries && cap == v.cap
      && isBlocked == v.isBlocked && again == v.again && cord == v.cord
    }

    ghost predicate Valid()
      reads this, cords, pfds, b, b.pool, b.sets, b.sets.Objs, b.sets.Elts
    {
      ValidFacts() == true
    }

    ghost predicate ValidFacts()
      reads this, cords, pfds, b, b.pool, b.sets, b.sets.Objs, b.sets.Elts
    {
      && Apart() && b.Valid()
      && (spec.status.Going? ==> spec.sched == b.Abs() && Stores(spec) && VisOk(spec))
    }

    /** The first call of getctx; `me` is the cord that is to be the visor. */
    constructor (b: Braid, ghost me: nat)
      requires b.Valid()
      requires forall k :: k in b.Abs().blocked ==> k.at != AfterBlock(OnFd) && k.id != me
      requires forall k :: k in b.Abs().runable && k.id == me ==> k.at.Entry?
      requires b.Abs().exec.Running? ==> b.Abs().exec.cord.id != me
      ensures Valid() && fresh(cords) && fresh(pfds)
      ensures this.b == b && spec == NoVisor(b.Abs(), me)
    {
      hide Braid.Valid, Braid.Abs, VisOk;
      NoVisorIs(b, me);
      ghost var s := b.Abs();
      this.b, cord, cnt, cap, isBlocked, again := b, 0, 0, 0, false, false;
      cords := new nat[0];
      pfds := new Pollfd[0];
      spec := NoVisor(s, me);
      new;
      assert b.Abs() == s && b.Valid();
      assert Stores(spec);
    }

    /** The arrays of poll_append are enlarged. */
    method Grow()
      requires Arrays() && cnt == cap
      modifies this`cap, this`cords, this`pfds
      ensures Arrays() && cnt < cap && Entries() == old(Entries()) && fresh(cords) && fresh(pfds)
      ensures cap == if old(cap) == 0 then 4 else old(cap) * 2
    {
      cap := if cap == 0 then 4 else cap * 2;
      var cs := new nat[cap];
      var ps := new Pollfd[cap](_ => Pollfd(0, 0, 0));
      forall i | 0 <= i < cnt {
        cs[i] := cords[i];
      }
      forall i | 0 <= i < cnt {
        ps[i] := pfds[i];
      }
      cords, pfds := cs, ps;
    }

    /** A new entry at the end, for which there is room. */
    method Push(c: nat, pfd: Pollfd)
      requires Arrays() && cnt < cap
      modifies this`cnt, cords, pfds
      ensures Arrays() && Entries() == old(Entries()) + [Waiter(c, pfd)]
    {
      ghost var es := Entries();
      cords[cnt] := c;
      pfds[cnt] := pfd;
      cnt := cnt + 1;
      assert Entries()[..cnt - 1] == es;
    }

    /** poll_remove */
    method PollRemove(c: nat)
      requires Arrays()
      modifies this`cnt, cords, pfds
      ensures Arrays() && Entries() == RemoveFirst(old(Entries()), c)
    {
      ghost var es := Entries();
      for i := 0 to cnt
        invariant Arrays() && Entries() == es && cnt == |es|
        invariant forall j :: 0 <= j < i ==> es[j].cord != c
      {
        if cords[i] == c {
          RemoveFirstAt(es, c, i);
          forall j | i <= j < cnt - 1 {
            cords[j] := cords[j + 1];
          }
          forall j | i <= j < cnt - 1 {
            pfds[j] := pfds[j + 1];
          }
          cnt := cnt - 1;
          assert Entries() == es[..i] + es[i + 1..];
          return;
        }
      }
      RemoveFirstNone(es, c);
    }

    /** What `poll` does to the entries, whatever it answers; `timeout` is how long
        it may wait. */
    method CallPoll(timeout: int, poll: Poll)
      requires Arrays() && (poll.Reported? ==> |poll.revents| == cnt)
      modifies pfds
      ensures Entries() == Polled(old(Entries()), poll)
    {
      ghost var es := Entries();
      forall i | 0 <= i < cnt {
        pfds[i] := match poll
                   case TimedOut => pfds[i].(revents := 0)
                   case Interrupted => pfds[i]
                   case Reported(revents) => pfds[i].(revents := revents[i]);
      }
      assert forall i :: 0 <= i < cnt ==> Entries()[i] == Polled(es, poll)[i];
    }

    /** One round of the loop over the entries, at `i`. */
    method SeeEntry(i: nat) returns (next: nat)
      requires Arrays() && i < cnt && Apart() && b.Valid() && b.Abs().exec.Running?
      modifies this`cnt, cords, pfds, b, b.sets.Objs, b.sets.Elts
      ensures Arrays() && Apart() && b.Valid()
      ensures fresh(b.sets.Objs - old(b.sets.Objs)) && b.sets.Elts == old(b.sets.Elts)
      ensures var es, e := old(Entries()), old(Entries()[i]);
              if Calls(e.pfd.revents, e.pfd.events) then
                && next == i && Entries() == RemoveFirst(es, e.cord)
                && b.Abs() == Wake(old(b.Abs()), e.cord, AsVal(e.pfd.revents))
              else next == i + 1 && Entries() == es && b.Abs() == old(b.Abs())
    {
      hide Braid.Valid, Braid.Abs, Wake, RemoveFirst, Zip, Calls, Ready;
      CallsIs(pfds[i]);
      if Ready(pfds[i]) {
        CordExecutes();
        var c := cords[i];
        var _ := b.Unblock(c, AsVal(pfds[i].revents));
        PollRemove(c);
        next := i;
      } else {
        next := i + 1;
      }
    }

    /** The loop over the entries in iovisor. */
    method PassOver()
      requires Valid() && spec.status.Going? && spec.sched.exec.Running?
      modifies this, cords, pfds, b, b.sets.Objs, b.sets.Elts
      ensures Valid() && fresh(b.sets.Objs - old(b.sets.Objs)) && b.sets.Elts == old(b.sets.Elts)
      ensures cords == old(cords) && pfds == old(pfds)
      ensures spec == Pass(old(spec))
    {
      hide Braid.Valid, Braid.Abs, VisOk, WakeReady, Wake, Unready, Midway, RemoveFirst, Zip, Ready, Calls;
      ghost var v := spec;
      ghost var es, j := v.entries, 0;
      MidwayEnds(v.sched, es);
      EntriesDiffer(v);
      var i := 0;
      while i < cnt
        invariant j <= |es| && i == |Unready(es[..j])| && i + |es| - j == cnt
        invariant Arrays() && Entries() == Midway(es, j)
        invariant Apart() && b.Valid() && b.Abs() == WakeReady(v.sched, es[..j])
        invariant b.Abs().exec == v.sched.exec
        invariant cords == old(cords) && pfds == old(pfds)
        invariant isBlocked == v.isBlocked && again == v.again && cord == v.cord && cap == v.cap
        invariant fresh(b.sets.Objs - old(b.sets.Objs)) && b.sets.Elts == old(b.sets.Elts)
        decreases |es| - j
      {
        MidwayOn(es, j);
        CallsIs(es[j].pfd);
        WakeReadyOn(v.sched, es, j);
        i := SeeEntry(i);
        j := j + 1;
      }
      PassKeeps(v);
      spec := Pass(v);
    }

    /** poll_append: false when the process ends because there is no cord to
        allocate from. `pfd` is what the caller waits for. */
    method PollAppend(pfd: Pollfd) returns (ok: bool)
      requires Stores(spec) && Apart() && b.Valid() && spec.sched == b.Abs() && spec.sched.exec.Running?
      modifies this, cords, pfds, b, b.sets.Objs, b.sets.Elts
      ensures Apart() && b.Valid()
      ensures fresh(b.sets.Objs - old(b.sets.Objs)) && b.sets.Elts == old(b.sets.Elts)
      ensures (cords == old(cords) || fresh(cords)) && (pfds == old(pfds) || fresh(pfds))
      ensures ok <==> !Access(old(spec)).NoCord?
      ensures ok ==> spec == Append(old(spec), pfd) && spec.sched == b.Abs() && Stores(spec)
      ensures !ok ==> spec == old(spec)
    {
      hide Braid.Valid, Braid.Abs, Wake, Sched.Find, Access, Grown, Append, Visor.Entries, Zip;
      ghost var v := spec;
      AppendIs(v, pfd);
      ExecIs();
      ok := MakeRoom();
      if !ok {
        return;
      }
      Push(b.curr.key, pfd);
      Rouse();
      spec := Append(v, pfd);
    }

    /** The visor is woken if it sleeps. */
    method Rouse()
      requires Apart() && b.Valid() && b.Abs().exec.Running?
      modifies this`isBlocked, b, b.sets.Objs, b.sets.Elts
      ensures Apart() && b.Valid() && !isBlocked
      ensures fresh(b.sets.Objs - old(b.sets.Objs)) && b.sets.Elts == old(b.sets.Elts)
      ensures b.Abs() == if old(isBlocked) then Wake(old(b.Abs()), cord, 0) else old(b.Abs())
    {
      hide Braid.Valid, Braid.Abs, Wake;
      CordExecutes();
      if isBlocked {
        var _ := b.Unblock(cord, 0);
        isBlocked := false;
      }
    }

    /** The arrays of poll_append get room for one entry more. */
    method MakeRoom() returns (ok: bool)
      requires Stores(spec) && Apart() && b.Valid() && spec.sched == b.Abs()
      modifies this`cap, this`cords, this`pfds
      ensures ok <==> !Access(spec).NoCord?
      ensures Arrays() && cord == old(cord)
      ensures (cords == old(cords) || fresh(cords)) && (pfds == old(pfds) || fresh(pfds))
      ensures ok ==> cnt < cap == Grown(spec).cap && Entries() == spec.entries
    {
      hide Braid.Valid, Braid.Abs, Present;
      ok := true;
      if cnt + 1 > cap {
        ok := b.HasCord(cord);
        if ok {
          Grow();
        }
      }
    }

    /** fdwait, up to the switch to the next cord; false when the process ends. */
    method WaitFd(fd: int, read: bool) returns (ok: bool)
      requires Valid() && spec.status.Going? && spec.sched.exec.Running? && !Mine(spec)
      modifies this, cords, pfds, b, b.pool, b.sets.Objs, b.sets.Elts
      ensures Valid() && fresh(b.sets.Objs - old(b.sets.Objs)) && b.sets.Elts == old(b.sets.Elts)
      ensures (cords == old(cords) || fresh(cords)) && (pfds == old(pfds) || fresh(pfds))
      ensures spec == FdWait(old(spec), fd, read) && (ok <==> !spec.status.Exited?)
      ensures spec.status.Going? ==>
                spec.entries == old(spec).entries
                                + [Waiter(old(spec).sched.exec.cord.id, Pollfd(fd, if read then 0x01 else 0x04, 0))]
    {
      hide Braid.Valid, Braid.Abs, VisOk, Append, Access, FdWait, Next, Visor.Entries, Zip;
      ghost var v := spec;
      FdWaitIs(v, fd, read);
      AsksFor(v, fd, read);
      ok := PollAppend(Pollfd(fd, if read then POLLIN else POLLOUT, 0));
      if ok {
        CordExecutes();
        b.Block(OnFd);
      }
      spec := FdWait(v, fd, read);
    }

    /** The timeout for `poll`: none if and only if no other cord is runnable. */
    method Timeout() returns (timeout: int)
      requires b.Valid()
      ensures timeout == if b.Abs().runable == [] then -1 else 0
    {
      hide Braid.Valid, Braid.Shape, Braid.Abs, Cnt;
      b.ValidMeans();
      var normal := b.CountNormal();
      var system := b.CountSystem();
      timeout := if normal + system > 0 then 0 else -1;
    }

    /** A call of `poll` and what the visor makes of its answer. */
    method PollOnce(poll: Poll)
      requires Valid() && spec.status.Going? && Mine(spec) && !again && cnt != 0
      requires poll.Reported? ==> |poll.revents| == cnt
      modifies this, cords, pfds, b, b.sets.Objs, b.sets.Elts
      ensures Valid() && fresh(b.sets.Objs - old(b.sets.Objs)) && b.sets.Elts == old(b.sets.Elts)
      ensures cords == old(cords) && pfds == old(pfds)
      ensures |old(spec).entries| == old(cnt) && spec == Answered(old(spec), poll)
    {
      hide Braid.Valid, Braid.Abs, VisOk, Pass, Polled, Visor.Entries, Zip;
      ghost var v := spec;
      PolledKeeps(v, poll);
      var timeout := Timeout();
      CallPoll(timeout, poll);
      again := poll.TimedOut?;
      spec := v.(entries := Polled(v.entries, poll), again := poll.TimedOut?);
      if !poll.TimedOut? {
        PassOver();
      }
    }

    /** A round of the loop with entries. */
    method PollRound(poll: Poll)
      requires Valid() && spec.status.Going? && Mine(spec) && !again && cnt != 0
      requires poll.Reported? ==> |poll.revents| == cnt
      requires Answered(spec, poll).status.Going? && Answered(spec, poll).sched.exec.Running?
      modifies this, cords, pfds, b, b.pool, b.sets.Objs, b.sets.Elts
      ensures Apart() && b.Valid()
      ensures fresh(b.sets.Objs - old(b.sets.Objs)) && b.sets.Elts == old(b.sets.Elts)
      ensures cords == old(cords) && pfds == old(pfds)
      ensures |old(spec).entries| == old(cnt)
      ensures b.Abs() == Yielded(Answered(old(spec), poll)).sched && Stores(Yielded(Answered(old(spec), poll)))
    {
      hide Braid.Valid, Braid.Abs, VisOk, Answered, Next;
      PollOnce(poll);
      CordExecutes();
      b.Yield();
    }

    /** The second yield of a round in which nothing happened. */
    method AgainRound()
      requires Valid() && spec.status.Going? && Mine(spec)
      modifies this`again, b, b.pool, b.sets.Objs, b.sets.Elts
      ensures Apart() && b.Valid()
      ensures fresh(b.sets.Objs - old(b.sets.Objs)) && b.sets.Elts == old(b.sets.Elts)
      ensures b.Abs() == Yielded(spec.(again := false)).sched && Stores(Yielded(spec.(again := false)))
    {
      hide Braid.Valid, Braid.Abs, VisOk, Next;
      CordExecutes();
      again := false;
      b.Yield();
    }

    /** A round without entries. */
    method IdleRound()
      requires Valid() && spec.status.Going? && Mine(spec)
      modifies this`isBlocked, b, b.pool, b.sets.Objs, b.sets.Elts
      ensures Apart() && b.Valid()
      ensures fresh(b.sets.Objs - old(b.sets.Objs)) && b.sets.Elts == old(b.sets.Elts)
      ensures b.Abs() == Next(spec.sched, Block(OnPoll))
      ensures Stores(spec.(isBlocked := true, sched := Next(spec.sched, Block(OnPoll))))
    {
      hide Braid.Valid, Braid.Abs, VisOk, Next;
      CordExecutes();
      isBlocked := true;
      b.Block(OnPoll);
    }

    /** The top of iovisor. */
    method Begin()
      requires Valid() && spec.status.Going? && Mine(spec)
      modifies this`cord, this`spec
      ensures Valid() && spec == Started(old(spec))
    {
      hide Braid.Valid, Braid.Abs, VisOk;
      StartedKeeps(spec);
      ExecIs();
      if b.cords[b.curr.key].at.Entry? {
        cord := b.curr.key;
      }
      spec := Started(spec);
    }

    lemma FieldsAre()
      requires Stores(spec)
      ensures again == spec.again && cnt == |spec.entries|
    {
    }

    /** iovisor: the top, and the body of its loop, from one suspension to the
        next. */
    method Run(poll: Poll)
      requires Valid() && spec.status.Going? && Mine(spec) && (poll.Reported? ==> |poll.revents| == cnt)
      modifies this, cords, pfds, b, b.pool, b.sets.Objs, b.sets.Elts
      ensures Valid() && fresh(b.sets.Objs - old(b.sets.Objs)) && b.sets.Elts == old(b.sets.Elts)
      ensures cords == old(cords) && pfds == old(pfds)
      ensures |old(spec).entries| == old(cnt) && spec == Turn(old(spec), poll)
    {
      hide Braid.Valid, Braid.Abs, VisOk, Answered, Next, Destroyed, Started, Visor.Stores;
      ghost var v := spec;
      FieldsAre();
      TurnIs(v, poll);
      Begin();
      FieldsAre();
      if again {
        AgainRound();
      } else if cnt != 0 {
        PollRound(poll);
      } else {
        IdleRound();
      }
      spec := Turn(v, poll);
    }

    /** Other cords did `steps` to the braid, and the visor saw nothing of it. */
    ghost method Elsewhere(steps: seq<Step>)
      requires Apart() && b.Valid() && spec.status.Going? && Stores(spec) && VisOk(spec)
      requires Runs(spec, AsActs(steps)) && b.Abs() == AfterActs(spec, AsActs(steps)).sched
      modifies this`spec
      ensures Valid() && spec == AfterActs(old(spec), AsActs(steps))
    {
      hide Braid.Valid, Braid.Abs, VisOk;
      ActsKeep(spec, AsActs(steps));
      OthersOnly(spec, steps);
      spec := AfterActs(spec, AsActs(steps));
    }

    lemma ExecIs()
      requires b.Valid() && b.Abs().exec.Running?
      ensures b.ctx == InCord && b.curr != null && b.curr.key == b.Abs().exec.cord.id
      ensures b.curr.key in b.cords && b.cords[b.curr.key].at == b.Abs().exec.cord.at
    {
      hide CordTables.Valid, MemOk, Inv, Counted, FreedByOthers, Cords;
      b.ExecutionIs();
    }

    lemma CordExecutes()
      requires b.Valid() && b.Abs().exec.Running?
      ensures b.ctx == InCord
    {
      hide CordTables.Valid, MemOk, Inv, Counted, FreedByOthers, Cords;
    }
  }

  lemma NoVisorIs(b: Braid, me: nat)
    requires b.Valid()
    requires forall k :: k in b.Abs().blocked ==> k.at != AfterBlock(OnFd) && k.id != me
    requires forall k :: k in b.Abs().runable && k.id == me ==> k.at.Entry?
    requires b.Abs().exec.Running? ==> b.Abs().exec.cord.id != me
    ensures VisOk(NoVisor(b.Abs(), me))
  {
    hide Braid.Valid, Braid.Abs, Braid.Shape, Braid.Sound, VisOk, Inv;
    b.ValidMeans();
    NoVisorInv(b.Abs(), me);
  }

  lemma AppendIs(v: Vis, pfd: Pollfd)
    requires v.sched.exec.Running?
    ensures var u := Append(v, pfd);
            && u.entries == v.entries + [Waiter(v.sched.exec.cord.id, pfd)] && u.cap == Grown(v).cap
            && !u.isBlocked && u.again == v.again && u.cord == v.cord
            && u.sched == if v.isBlocked then Wake(v.sched, v.cord, 0) else v.sched
  {
  }

  lemma EntriesDiffer(v: Vis)
    requires VisOk(v)
    ensures forall i, j :: 0 <= i < j < |v.entries| ==> v.entries[i].cord != v.entries[j].cord
  {
  }

  lemma FdWaitIs(v: Vis, fd: int, read: bool)
    requires VisOk(v) && v.sched.exec.Running? && !Mine(v)
    ensures VisInv(FdWait(v, fd, read))
    ensures Append(v, WaitFor(fd, read)).sched.exec == v.sched.exec
    ensures var t, u := FdWait(v, fd, read), Append(v, WaitFor(fd, read));
            match Access(v)
            case Live => t == u.(sched := Next(u.sched, Block(OnFd))) && t.status == v.status
            case NoCord => t.status.Exited?
            case _ => !t.status.Going? && !t.status.Exited?
  {
    FdWaitKeeps(v, fd, read);
  }

  lemma AsksFor(v: Vis, fd: int, read: bool)
    requires VisOk(v) && v.status.Going? && v.sched.exec.Running? && !Mine(v)
    ensures FdWait(v, fd, read).status.Going? ==>
              FdWait(v, fd, read).entries
              == v.entries + [Waiter(v.sched.exec.cord.id, Pollfd(fd, if read then 0x01 else 0x04, 0))]
  {
    hide VisOk, FdWait;
    if FdWait(v, fd, read).status.Going? {
      WaitAsks(v, fd, read);
    }
  }

  lemma TurnIs(v: Vis, poll: Poll)
    requires VisOk(v) && Mine(v) && (poll.Reported? ==> |poll.revents| == |v.entries|)
    ensures VisInv(Turn(v, poll))
    ensures Answered(Started(v), poll).sched.exec == v.sched.exec
    ensures Answered(Started(v), poll).me == v.me && Answered(Started(v), poll).status == v.status
  {
    TurnKeeps(v, poll);
  }

  /** Steps of other cords change the scheduler only. */
  lemma {:induction false} OthersOnly(v: Vis, steps: seq<Step>)
    requires Runs(v, AsActs(steps))
    ensures AfterActs(v, AsActs(steps)) == v.(sched := AfterActs(v, AsActs(steps)).sched)
    decreases |steps|
  {
    if steps != [] {
      assert AsActs(steps)[1..] == AsActs(steps[1..]);
      OthersOnly(Do(v, Act.Other(steps[0])), steps[1..]);
    }
  }
}
