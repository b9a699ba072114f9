/** braid.c over its sets of cords and its chunk pool. Every operation is the
    step of the state machine in `Sched` that it stands for. */
module Braids {
  import opened HashTables
  import opened CordSets
  import opened Pools
  import opened Sched

  // ---------------------------------------------------------------------
  // Memory
  // ---------------------------------------------------------------------

  /** The three chunks of a cord are its own. */
  ghost predicate Owns(chunks: seq<nat>, id: nat, ownerOf: map<nat, nat>) {
    OwnsFacts(chunks, id, ownerOf) == true
  }

  ghost predicate OwnsFacts(chunks: seq<nat>, id: nat, ownerOf: map<nat, nat>) {
    && |chunks| == 3
    && (forall k :: 0 <= k < 3 ==> chunks[k] in ownerOf && ownerOf[chunks[k]] == id)
    && (forall j, k :: 0 <= j < k < 3 ==> chunks[j] != chunks[k])
  }

  /** The cords allocated are those created and not destroyed, and each has
      three live chunks, with no other chunk live. `ownerOf` maps a live chunk
      to its cord. */
  ghost predicate MemOk(cords: Heap, ownerOf: map<nat, nat>, count: nat, log: seq<Event>) {
    MemOkFacts(cords, ownerOf, count, log) == true
  }

  ghost predicate MemOkFacts(cords: Heap, ownerOf: map<nat, nat>, count: nat, log: seq<Event>) {
    && (forall id: nat :: id in cords <==> id < count && TimesFreed(log, id) == 0)
    && (forall id: nat :: id in cords ==> Owns(cords[id].lambdas, id, ownerOf))
    && |ownerOf| == 3 * |cords|
  }

  lemma MemEmpty()
    ensures MemOk(map[], map[], 0, [])
  {
  }

  lemma MemUpdate(cords: Heap, ownerOf: map<nat, nat>, count: nat, log: seq<Event>, id: nat, data: CordData)
    requires MemOk(cords, ownerOf, count, log) && id in cords && data.lambdas == cords[id].lambdas
    ensures MemOk(cords[id := data], ownerOf, count, log)
  {
    assert cords[id := data].Keys == cords.Keys;
  }

  lemma MemEvent(cords: Heap, ownerOf: map<nat, nat>, count: nat, log: seq<Event>, e: Event)
    requires MemOk(cords, ownerOf, count, log) && !e.Freed?
    ensures MemOk(cords, ownerOf, count, log + [e])
  {
    forall id: nat ensures TimesFreed(log + [e], id) == TimesFreed(log, id) {
      OtherTimes(log, e, id);
    }
  }

  /** The owners without those of the first `n` of `chunks`. */
  function Disown(ownerOf: map<nat, nat>, chunks: seq<nat>, n: nat): map<nat, nat>
    requires n <= |chunks|
  {
    if n == 0 then ownerOf else Disown(ownerOf, chunks, n - 1) - {chunks[n - 1]}
  }

  lemma MemIs(cords: Heap, ownerOf: map<nat, nat>, count: nat, log: seq<Event>)
    requires forall id: nat :: id in cords <==> id < count && TimesFreed(log, id) == 0
    requires forall id: nat :: id in cords ==> Owns(cords[id].lambdas, id, ownerOf)
    requires |ownerOf| == 3 * |cords|
    ensures MemOk(cords, ownerOf, count, log)
  {
  }

  lemma FreedTimes(log: seq<Event>, id: nat, who: Option<nat>, i: nat)
    ensures TimesFreed(log + [Freed(id, who)], i) == TimesFreed(log, i) + if i == id then 1 else 0
  {
    var e := Freed(id, who);
    TimesFreedAppend(log, [e], i);
    assert TimesFreed([e], i) == (if e.id == i then 1 else 0) + TimesFreed([e][1..], i);
  }

  lemma DisownThree(ownerOf: map<nat, nat>, c: seq<nat>, id: nat)
    requires Owns(c, id, ownerOf)
    ensures |c| == 3 && |Disown(ownerOf, c, 3)| == |ownerOf| - 3
  {
    assert Disown(ownerOf, c, 1) == ownerOf - {c[0]};
    assert Disown(ownerOf, c, 2) == ownerOf - {c[0]} - {c[1]};
    MapMinus(ownerOf, c[0]);
    MapMinus(ownerOf - {c[0]}, c[1]);
    MapMinus(ownerOf - {c[0]} - {c[1]}, c[2]);
  }

  lemma DisownStays(ownerOf: map<nat, nat>, c: seq<nat>, id: nat, chunks: seq<nat>, other: nat)
    requires Owns(c, id, ownerOf) && Owns(chunks, other, ownerOf) && id != other
    ensures |c| == 3 && Owns(chunks, other, Disown(ownerOf, c, 3))
  {
    assert Disown(ownerOf, c, 1) == ownerOf - {c[0]};
    assert Disown(ownerOf, c, 2) == ownerOf - {c[0]} - {c[1]};
  }

  lemma MemFree(cords: Heap, ownerOf: map<nat, nat>, count: nat, log: seq<Event>, id: nat, who: Option<nat>)
    requires MemOk(cords, ownerOf, count, log) && id in cords
    ensures |cords[id].lambdas| == 3
    ensures MemOk(cords - {id}, Disown(ownerOf, cords[id].lambdas, 3), count, log + [Freed(id, who)])
  {
    hide TimesFreed, Disown, Owns;
    var chunks := cords[id].lambdas;
    DisownThree(ownerOf, chunks, id);
    var cords', owner', log' := cords - {id}, Disown(ownerOf, chunks, 3), log + [Freed(id, who)];
    assert cords'.Keys == cords.Keys - {id};
    forall i: nat ensures i in cords' <==> i < count && TimesFreed(log', i) == 0 {
      FreedTimes(log, id, who, i);
    }
    forall i: nat | i in cords' ensures Owns(cords'[i].lambdas, i, owner') {
      DisownStays(ownerOf, chunks, id, cords[i].lambdas, i);
    }
    MemIs(cords', owner', count, log');
  }

  lemma MemOwns(cords: Heap, ownerOf: map<nat, nat>, count: nat, log: seq<Event>, id: nat)
    requires MemOk(cords, ownerOf, count, log) && id in cords
    ensures Owns(cords[id].lambdas, id, ownerOf)
  {
  }

  lemma MapMinus(m: map<nat, nat>, a: nat)
    requires a in m
    ensures |m - {a}| == |m| - 1
  {
    assert (m - {a}).Keys == m.Keys - {a};
  }

  lemma OwnsStill(chunks: seq<nat>, id: nat, ownerOf: map<nat, nat>, a: nat, other: nat)
    requires Owns(chunks, id, ownerOf) && a !in ownerOf
    ensures Owns(chunks, id, ownerOf[a := other])
  {
  }

  /** The owners with those of three more chunks. */
  ghost function Own(ownerOf: map<nat, nat>, c: seq<nat>, id: nat): map<nat, nat>
    requires |c| == 3
  {
    ownerOf[c[0] := id][c[1] := id][c[2] := id]
  }

  lemma OwnThree(ownerOf: map<nat, nat>, c: seq<nat>, id: nat)
    requires |c| == 3 && (forall k :: 0 <= k < 3 ==> c[k] !in ownerOf)
    requires forall j, k :: 0 <= j < k < 3 ==> c[j] != c[k]
    ensures Owns(c, id, Own(ownerOf, c, id)) && |Own(ownerOf, c, id)| == |ownerOf| + 3
    ensures Own(ownerOf, c, id).Keys == ownerOf.Keys + {c[0], c[1], c[2]}
  {
    OwnSize(ownerOf, c[0], c[1], c[2], id);
  }

  lemma OwnSize(ownerOf: map<nat, nat>, a: nat, b: nat, c: nat, id: nat)
    requires a !in ownerOf && b !in ownerOf && c !in ownerOf && a != b && a != c && b != c
    ensures |ownerOf[a := id][b := id][c := id]| == |ownerOf| + 3
    ensures ownerOf[a := id][b := id][c := id].Keys == ownerOf.Keys + {a, b, c}
  {
    MapPlus(ownerOf, a, id);
    MapPlus(ownerOf[a := id], b, id);
    MapPlus(ownerOf[a := id][b := id], c, id);
  }

  lemma MapPlus(m: map<nat, nat>, a: nat, b: nat)
    requires a !in m
    ensures m[a := b].Keys == m.Keys + {a} && |m[a := b]| == |m| + 1
  {
    assert m[a := b].Keys == m.Keys + {a};
  }

  lemma OwnStays(ownerOf: map<nat, nat>, c: seq<nat>, id: nat, chunks: seq<nat>, other: nat)
    requires |c| == 3 && (forall k :: 0 <= k < 3 ==> c[k] !in ownerOf)
    requires forall j, k :: 0 <= j < k < 3 ==> c[j] != c[k]
    requires Owns(chunks, other, ownerOf)
    ensures Owns(chunks, other, Own(ownerOf, c, id))
  {
    OwnsStill(chunks, other, ownerOf, c[0], id);
    OwnsStill(chunks, other, ownerOf[c[0] := id], c[1], id);
    OwnsStill(chunks, other, ownerOf[c[0] := id][c[1] := id], c[2], id);
  }

  /** Three chunks that belong to no cord, and no other such live chunk. */
  ghost predicate Fresh3(chunks: seq<nat>, ownerOf: map<nat, nat>, live: set<nat>) {
    Fresh3Facts(chunks, ownerOf, live) == true
  }

  ghost predicate Fresh3Facts(chunks: seq<nat>, ownerOf: map<nat, nat>, live: set<nat>) {
    && |chunks| == 3 && live == ownerOf.Keys + {chunks[0], chunks[1], chunks[2]}
    && (forall k :: 0 <= k < 3 ==> chunks[k] !in ownerOf)
    && (forall j, k :: 0 <= j < k < 3 ==> chunks[j] != chunks[k])
  }

  lemma MemAdd(cords: Heap, ownerOf: map<nat, nat>, count: nat, log: seq<Event>, data: CordData, live: set<nat>)
    requires MemOk(cords, ownerOf, count, log) && TimesFreed(log, count) == 0
    requires Fresh3(data.lambdas, ownerOf, live)
    ensures |data.lambdas| == 3 && live == Own(ownerOf, data.lambdas, count).Keys
    ensures MemOk(cords[count := data], Own(ownerOf, data.lambdas, count), count + 1, log)
  {
    hide *;
    FreshMeans(data.lambdas, ownerOf, live);
    var cords': Heap, owner' := cords[count := data], Own(ownerOf, data.lambdas, count);
    OwnThree(ownerOf, data.lambdas, count);
    MemAddDomain(cords, ownerOf, count, log, data);
    forall i: nat | i in cords' ensures Owns(cords'[i].lambdas, i, owner') {
      MemAddOwns(cords, ownerOf, count, log, data, live, i);
    }
    assert |owner'| == 3 * |cords'|;
    assert forall i: nat :: i in cords' ==> Owns(cords'[i].lambdas, i, owner');
    assert forall id: nat :: id in cords' <==> id < count + 1 && TimesFreed(log, id) == 0;
    MemIs(cords', owner', count + 1, log);
  }

  lemma FreshMeans(chunks: seq<nat>, ownerOf: map<nat, nat>, live: set<nat>)
    requires Fresh3(chunks, ownerOf, live)
    ensures |chunks| == 3 && live == ownerOf.Keys + {chunks[0], chunks[1], chunks[2]}
    ensures forall k :: 0 <= k < 3 ==> chunks[k] !in ownerOf
    ensures forall j, k :: 0 <= j < k < 3 ==> chunks[j] != chunks[k]
  {
  }

  lemma MemAddDomain(cords: Heap, ownerOf: map<nat, nat>, count: nat, log: seq<Event>, data: CordData)
    requires MemOk(cords, ownerOf, count, log) && TimesFreed(log, count) == 0
    ensures forall id: nat :: id in cords[count := data] <==> id < count + 1 && TimesFreed(log, id) == 0
    ensures |ownerOf| + 3 == 3 * |cords[count := data]|
  {
    hide MemOk, TimesFreed;
    MemDomain(cords, ownerOf, count, log);
    HeapPlus(cords, count, data);
  }

  lemma HeapPlus(cords: Heap, id: nat, data: CordData)
    requires id !in cords
    ensures cords[id := data].Keys == cords.Keys + {id} && |cords[id := data]| == |cords| + 1
  {
    assert cords[id := data].Keys == cords.Keys + {id};
  }

  lemma MemAddOwns(cords: Heap, ownerOf: map<nat, nat>, count: nat, log: seq<Event>, data: CordData,
                   live: set<nat>, i: nat)
    requires MemOk(cords, ownerOf, count, log) && Fresh3(data.lambdas, ownerOf, live)
    requires i == count || i in cords
    ensures |data.lambdas| == 3
    ensures Owns(if i == count then data.lambdas else cords[i].lambdas, i, Own(ownerOf, data.lambdas, count))
  {
    hide MemOk, Own, Owns;
    OwnThree(ownerOf, data.lambdas, count);
    if i != count {
      MemOwns(cords, ownerOf, count, log, i);
      OwnStays(ownerOf, data.lambdas, count, cords[i].lambdas, i);
    }
  }

  lemma MemDomain(cords: Heap, ownerOf: map<nat, nat>, count: nat, log: seq<Event>)
    requires MemOk(cords, ownerOf, count, log)
    ensures forall id: nat :: id in cords <==> id < count && TimesFreed(log, id) == 0
    ensures |ownerOf| == 3 * |cords|
  {
  }

  /** A set of which the first `i` cords are destroyed. */
  ghost function FreeSome(s: State, p: Place, who: Option<nat>, i: nat): State
    requires i <= |CordsAt(s, p)|
  {
    WithCords(s, p, CordsAt(s, p)[i..]).(log := s.log + FreeAll(CordsAt(s, p)[..i], who))
  }

  lemma FreeSomeNext(s: State, p: Place, who: Option<nat>, i: nat)
    requires i < |CordsAt(s, p)|
    ensures var t := FreeSome(s, p, who, i);
            && CordsAt(t, p) != [] && CordsAt(t, p)[0] == CordsAt(s, p)[i]
            && FreeSome(s, p, who, i + 1)
               == WithCords(t, p, CordsAt(t, p)[1..]).(log := t.log + [Freed(CordsAt(t, p)[0].id, who)])
  {
    var cs := CordsAt(s, p);
    assert FreeAll(cs[..i + 1], who) == FreeAll(cs[..i], who) + [Freed(cs[i].id, who)];
    assert cs[i..][1..] == cs[i + 1..];
  }

  lemma FreeSetExec(s: State, p: Place, who: Option<nat>)
    ensures FreeSet(s, p, who).exec == s.exec
  {
  }

  lemma FreeSomeEnds(s: State, p: Place, who: Option<nat>)
    ensures FreeSome(s, p, who, 0) == s
    ensures FreeSome(s, p, who, |CordsAt(s, p)|) == FreeSet(s, p, who)
  {
    var cs := CordsAt(s, p);
    assert cs[0..] == cs && cs[..|cs|] == cs;
    assert s.log + FreeAll(cs[..0], who) == s.log;
  }

  /** Every cord is counted once, and none was destroyed by itself. */
  ghost predicate InCensus(s: State) {
    (Counted(s) && FreedByOthers(s.log)) == true
  }

  // ---------------------------------------------------------------------
  // The braid
  // ---------------------------------------------------------------------

  /** The context that executes: the caller of `braidstart` before it, the cord
      `curr`, the caller again (or none, during a switch), nothing. */
  datatype Ctx = Before | InCord | Back | Gone

  class Braid {
    var ctx: Ctx
    var curr: Handle?
    const sets: CordTables
    const pool: Pool
    var count: nat
    /** The cords in memory, by id. */
    var cords: Heap

    /** What happened so far. */
    ghost var log: seq<Event>
    /** The cord that each live chunk belongs to. */
    ghost var ownerOf: map<nat, nat>

    ghost function Execution(): Exec
      reads this
    {
      match ctx
      case Before => Setup
      case InCord => if curr == null then Setup else Running(CordOf(curr.key, cords))
      case Back => Returning
      case Gone => Finished
    }

    /** The cords of a set. */
    ghost function Set(p: Place): seq<Cord>
      reads this`cords, sets.Table(p)`order
    {
      Cords(sets.In(p), cords)
    }

    /** The state that the braid is in. */
    ghost function Abs(): State
      reads this, sets.runable`order, sets.blocked`order, sets.zombies`order
    {
      State(Execution(), Set(AsRunable), Set(AsBlocked), Set(AsZombie), count, log)
    }

    /** All is in order, but for the pool. */
    ghost predicate Sound()
      reads this, sets, sets.Objs, sets.Elts
    {
      SoundFacts() == true
    }

    ghost predicate SoundFacts()
      reads this, sets, sets.Objs, sets.Elts
    {
      && this !in sets.Objs && pool !in sets.Objs
      && sets.Valid()
      && (ctx.InCord? ==> curr != null) && (ctx.Before? ==> curr == null)
      && (curr != null ==> curr in sets.Elts)
      && MemOk(cords, ownerOf, count, log)
      && InCensus(Abs())
    }

    ghost predicate Shape()
      reads this, pool, sets, sets.Objs, sets.Elts
    {
      ShapeFacts() == true
    }

    ghost predicate ShapeFacts()
      reads this, pool, sets, sets.Objs, sets.Elts
    {
      Sound() && pool.Valid() && pool.live == ownerOf.Keys
    }

    ghost predicate Valid(): (valid: bool)
      reads this, pool, sets, sets.Objs, sets.Elts
      ensures valid && ctx.InCord? ==> Abs().exec.Running?
    {
      ValidFacts() == true
    }

    ghost predicate ValidFacts()
      reads this, pool, sets, sets.Objs, sets.Elts
    {
      Shape() && Inv(Abs())
    }

    /** braidinit */
    constructor (hash: nat -> nat, mem: nat, len: nat, chunkSz: nat)
      requires mem > 0 && chunkSz >= LINK_SIZE
      ensures Valid() && fresh(sets) && fresh(sets.Objs) && fresh(pool) && sets.Elts == {}
      ensures Abs() == Init()
    {
      hide CordTables.Valid, Pool.Valid;
      ctx, curr, count := Before, null, 0;
      sets := new CordTables(hash);
      pool := new Pool(mem, len, chunkSz);
      cords, log, ownerOf := map[], [], map[];
      new;
      MemEmpty();
      InitInv();
      hide CordTables.Valid, Pool.Valid, MemOk, Inv, Counted;
      assert Abs() == Init();
    }

    /** A cord in a set is in memory, and in no other set. */
    lemma InMemory(p: Place, k: nat)
      requires Shape() && k < |sets.In(p)|
      ensures var id := sets.In(p)[k].key;
              && id in cords && sets.In(p)[k] in sets.Elts
              && (ctx.InCord? ==> curr.key != id)
              && Sched.Find(Set(p), id) == k
              && (forall j :: 0 <= j < |sets.In(p)| && j != k ==> sets.In(p)[j].key != id)
              && (forall q, j :: q != p && 0 <= j < |sets.In(q)| ==> sets.In(q)[j].key != id)
    {
      hide CordTables.Valid, Pool.Valid, Cords, Counted;
      var s := Abs();
      sets.InElts(p);
      assert forall q :: CordsAt(s, q) == Set(q);
      OnlyThere(s, p, k);
      forall q, j | q != p && 0 <= j < |sets.In(q)| ensures sets.In(q)[j].key != sets.In(p)[k].key {
        assert CordsAt(s, q)[j].id == sets.In(q)[j].key;
      }
      forall j | 0 <= j < |sets.In(p)| && j != k ensures sets.In(p)[j].key != sets.In(p)[k].key {
        assert CordsAt(s, p)[j].id == sets.In(p)[j].key;
      }
    }

    /** braidunblock */
    method Unblock(id: nat, val: nat) returns (ret: int)
      requires Valid() && (ctx == Before || ctx == InCord)
      modifies this, sets.Objs, sets.Elts
      ensures Valid() && fresh(sets.Objs - old(sets.Objs)) && sets.Elts == old(sets.Elts)
      ensures Abs() == Wake(old(Abs()), id, val)
      ensures ret == if IsBlocked(old(Abs()), id) then 0 else -1
    {
      hide CordTables.Valid, Pool.Valid, MemOk, Inv, Counted, FreedByOthers, Cords, Wake;
      var tgt := sets.Find(AsBlocked, id);
      if tgt != null {
        ghost var k :| 0 <= k < |sets.In(AsBlocked)| && sets.In(AsBlocked)[k] == tgt;
        WakeElt(tgt, k, val);
        return 0;
      } else {
        NotFound(AsBlocked, id);
        WakeNone(Abs(), id, val);
        return -1;
      }
    }

    /** getcord among the runnable cords, then among the blocked ones: whether
        there is an arena to allocate from. */
    method HasCord(id: nat) returns (found: bool)
      requires Valid()
      ensures found <==> exists k :: (k in Abs().runable || k in Abs().blocked) && k.id == id
      ensures found == Present(Abs(), id)
    {
      hide CordTables.Valid, Pool.Valid, MemOk, Inv, Counted, FreedByOthers, Cords, Sched.Find;
      BlockedIs(Abs(), id);
      var tgt := sets.Find(AsRunable, id);
      if tgt != null {
        FoundAt(AsRunable, tgt);
        return true;
      }
      NotFound(AsRunable, id);
      tgt := sets.Find(AsBlocked, id);
      if tgt != null {
        FoundAt(AsBlocked, tgt);
        return true;
      }
      NotFound(AsBlocked, id);
      return false;
    }

    lemma FoundAt(p: Place, tgt: Handle)
      requires Valid() && tgt in sets.In(p)
      ensures Sched.Find(Set(p), tgt.key) < |Set(p)|
    {
      hide CordTables.Valid, Pool.Valid, MemOk, Inv, Counted, FreedByOthers, Cords, Sched.Find;
      var k :| 0 <= k < |sets.In(p)| && sets.In(p)[k] == tgt;
      InMemory(p, k);
    }

    lemma WakeNone(s: State, id: nat, val: nat)
      requires Sched.Find(s.blocked, id) == |s.blocked|
      ensures Wake(s, id, val) == s
    {
    }

    lemma NotFound(p: Place, id: nat)
      requires forall k :: 0 <= k < |sets.In(p)| ==> sets.In(p)[k].key != id
      ensures Sched.Find(Set(p), id) == |Set(p)|
    {
      forall j | 0 <= j < |Set(p)| ensures Set(p)[j].id != id {
        assert Set(p)[j].id == sets.In(p)[j].key;
      }
    }

    method WakeElt(tgt: Handle, ghost k: nat, val: nat)
      requires Valid() && (ctx == Before || ctx == InCord)
      requires k < |sets.In(AsBlocked)| && sets.In(AsBlocked)[k] == tgt
      modifies this, sets.Objs, sets.Elts
      ensures Valid() && fresh(sets.Objs - old(sets.Objs)) && sets.Elts == old(sets.Elts)
      ensures Abs() == Wake(old(Abs()), tgt.key, val)
      ensures IsBlocked(old(Abs()), tgt.key)
    {
      hide CordTables.Valid, Pool.Valid, MemOk, Inv, Counted, FreedByOthers, Cords;
      ghost var s, R, B, Z := Abs(), sets.In(AsRunable), sets.In(AsBlocked), sets.In(AsZombie);
      InMemory(AsBlocked, k);
      ghost var was := cords;
      cords := cords[tgt.key := cords[tgt.key].(val := val)];
      sets.Rehang(AsBlocked, AsRunable, tgt, k);
      log := log + [Woken(tgt.key, val)];
      MemUpdate(was, ownerOf, count, s.log, tgt.key, cords[tgt.key]);
      MemEvent(cords, ownerOf, count, s.log, Woken(tgt.key, val));
      CordsUnchanged(R, was, cords, tgt.key);
      CordsUnchanged(Without(B, k), was, cords, tgt.key);
      CordsUnchanged(Z, was, cords, tgt.key);
      CordsSnoc(R, tgt, cords);
      CordsWithout(B, k, was);
      assert Abs() == Wake(s, tgt.key, val);
      WakeKeeps(s, tgt.key, val);
      InvCounted(Abs());
    }

    /** cordhalt */
    method HaltId(id: nat)
      requires Valid() && (ctx == Before || ctx == InCord)
      modifies this, sets.Objs, sets.Elts
      ensures Valid() && fresh(sets.Objs - old(sets.Objs)) && sets.Elts == old(sets.Elts)
      ensures Abs() == HaltCord(old(Abs()), id)
    {
      hide CordTables.Valid, Pool.Valid, MemOk, Inv, Counted, FreedByOthers, Cords;
      ghost var s := Abs();
      var tgt := sets.Find(AsRunable, id);
      if tgt != null {
        ghost var k :| 0 <= k < |sets.In(AsRunable)| && sets.In(AsRunable)[k] == tgt;
        HaltElt(AsRunable, tgt, k);
      } else {
        NotFound(AsRunable, id);
        tgt := sets.Find(AsBlocked, id);
        if tgt != null {
          ghost var k :| 0 <= k < |sets.In(AsBlocked)| && sets.In(AsBlocked)[k] == tgt;
          HaltElt(AsBlocked, tgt, k);
        } else {
          NotFound(AsBlocked, id);
        }
      }
    }

    method HaltElt(p: Place, tgt: Handle, ghost k: nat)
      requires Valid() && (ctx == Before || ctx == InCord) && p != AsZombie
      requires k < |sets.In(p)| && sets.In(p)[k] == tgt
      requires p == AsBlocked ==> Sched.Find(Set(AsRunable), tgt.key) == |Set(AsRunable)|
      modifies this, sets.Objs, sets.Elts
      ensures Valid() && fresh(sets.Objs - old(sets.Objs)) && sets.Elts == old(sets.Elts)
      ensures Abs() == HaltCord(old(Abs()), tgt.key)
    {
      hide CordTables.Valid, Pool.Valid, MemOk, Inv, Counted, FreedByOthers, Cords;
      ghost var s, P, Z := Abs(), sets.In(p), sets.In(AsZombie);
      InMemory(p, k);
      sets.Rehang(p, AsZombie, tgt, k);
      CordsSnoc(Z, tgt, cords);
      CordsWithout(P, k, cords);
      assert Abs() == HaltCord(s, tgt.key);
      HaltKeeps(s, tgt.key);
      InvCounted(Abs());
    }

    /** The executing cord joins a set, to go on at `at`. */
    method PutAside(p: Place, at: Point)
      requires Shape() && ctx.InCord?
      modifies this, sets.Objs, sets.Elts
      ensures Shape() && ctx == Back && fresh(sets.Objs - old(sets.Objs)) && sets.Elts == old(sets.Elts)
      ensures var s, c := old(Abs()), old(Abs()).exec.cord.(at := at);
              Abs() == match p
                       case AsRunable => s.(exec := Returning, runable := s.runable + [c])
                       case AsBlocked => s.(exec := Returning, blocked := s.blocked + [c])
                       case AsZombie => s.(exec := Returning, zombies := s.zombies + [c])
    {
      hide CordTables.Valid, Pool.Valid, MemOk, Inv, Counted, FreedByOthers, Cords;
      ghost var s, was, P := Abs(), cords, sets.In(p);
      ghost var R, B, Z := sets.In(AsRunable), sets.In(AsBlocked), sets.In(AsZombie);
      CurrInMemory();
      cords := cords[curr.key := cords[curr.key].(at := at)];
      sets.Add(p, curr);
      ctx := Back;
      MemUpdate(was, ownerOf, count, log, curr.key, cords[curr.key]);
      CordsUnchanged(R, was, cords, curr.key);
      CordsUnchanged(B, was, cords, curr.key);
      CordsUnchanged(Z, was, cords, curr.key);
      CordsSnoc(P, curr, cords);
      SuspendCounted(s, s.exec.cord.(at := at), match p
        case AsRunable => s.(runable := s.runable + [s.exec.cord.(at := at)])
        case AsBlocked => s.(blocked := s.blocked + [s.exec.cord.(at := at)])
        case AsZombie => s.(zombies := s.zombies + [s.exec.cord.(at := at)]));
    }

    /** The executing cord is in memory, and in no set. */
    lemma CurrInMemory()
      requires Shape() && ctx.InCord?
      ensures curr.key in cords
      ensures forall q, j :: 0 <= j < |sets.In(q)| ==> sets.In(q)[j].key != curr.key
    {
      hide CordTables.Valid, Pool.Valid, Cords;
      var s := Abs();
      assert Places(s, curr.key) <= 1;
      assert Executing(s.exec, curr.key) == 1;
      hide Counted;
      forall q, j | 0 <= j < |sets.In(q)| ensures sets.In(q)[j].key != curr.key {
        InMemory(q, j);
      }
    }

    /** corddel of a cord that is in no set. */
    method CordDel(id: nat, ghost who: Option<nat>)
      requires pool.Valid() && pool.live == ownerOf.Keys
      requires MemOk(cords, ownerOf, count, log) && id in cords
      modifies this`cords, this`ownerOf, this`log, pool
      ensures pool.Valid() && pool.live == ownerOf.Keys
      ensures MemOk(cords, ownerOf, count, log)
      ensures cords == old(cords) - {id} && log == old(log) + [Freed(id, who)]
    {
      hide MemOk, Pool.Valid, TimesFreed;
      var chunks := cords[id].lambdas;
      MemOwns(cords, ownerOf, count, log, id);
      MemFree(cords, ownerOf, count, log, id, who);
      FreeChunks(chunks);
      cords := cords - {id};
      log := log + [Freed(id, who)];
    }

    /** The chunks of a cord go back to the pool. */
    method FreeChunks(chunks: seq<nat>)
      requires pool.Valid() && pool.live == ownerOf.Keys
      requires |chunks| == 3 && forall k :: 0 <= k < 3 ==> chunks[k] in ownerOf
      requires forall j, k :: 0 <= j < k < 3 ==> chunks[j] != chunks[k]
      modifies this`ownerOf, pool
      ensures pool.Valid() && pool.live == ownerOf.Keys
      ensures ownerOf == Disown(old(ownerOf), chunks, 3)
    {
      ghost var was := ownerOf;
      for i := 0 to 3
        invariant pool.Valid() && pool.live == ownerOf.Keys
        invariant ownerOf == Disown(was, chunks, i)
        invariant forall k :: i <= k < 3 ==> chunks[k] in ownerOf
      {
        pool.LiveChunks();
        hide Pool.Valid;
        if chunks[i] != 0 {
          pool.Free(chunks[i]);
        }
        ownerOf := ownerOf - {chunks[i]};
      }
    }

    /** HASH_DEL and corddel of the first cord of a set. */
    method FreeFirst(p: Place, c: Handle, ghost who: Option<nat>)
      requires Shape()
      requires sets.In(p) != [] && c == sets.In(p)[0]
      requires who != Some(c.key)
      modifies this`cords, this`ownerOf, this`log, pool, sets.Objs, sets.Elts
      ensures Shape() && sets.Objs == old(sets.Objs) && sets.Elts == old(sets.Elts)
      ensures sets.In(p) == old(sets.In(p))[1..]
      ensures var s := old(Abs());
              Abs() == WithCords(s, p, CordsAt(s, p)[1..]).(log := s.log + [Freed(c.key, who)])
    {
      hide CordTables.Valid, Pool.Valid, MemOk, Inv, Counted, Cords;
      ghost var s, was, P := Abs(), cords, sets.In(p);
      InMemory(p, 0);
      FreeFirstCounted(s, p, who);
      sets.Del(p, c, 0);
      CordDel(c.key, who);
      assert cords - {c.key} == was - {c.key};
      WithoutFirst(P, was);
      OthersUnchanged(was, c.key);
    }

    lemma WithoutFirst(P: seq<Handle>, was: Heap)
      requires P != []
      ensures Without(P, 0) == P[1..] && Cords(P[1..], was) == Cords(P, was)[1..]
    {
      CordsWithout(P, 0, was);
      assert Without(P, 0) == P[1..];
    }

    /** No cord in a set changes with another one in memory. */
    lemma OthersUnchanged(was: Heap, id: nat)
      requires forall q, j :: 0 <= j < |sets.In(q)| ==> sets.In(q)[j].key != id
      requires cords - {id} == was - {id}
      ensures forall q :: Cords(sets.In(q), cords) == Cords(sets.In(q), was)
      ensures curr != null && curr.key != id ==> CordOf(curr.key, cords) == CordOf(curr.key, was)
    {
      forall q ensures Cords(sets.In(q), cords) == Cords(sets.In(q), was) {
        CordsUnchanged(sets.In(q), was, cords, id);
      }
      if curr != null && curr.key != id {
        CordUnchanged(curr.key, was, cords, id);
      }
    }

    /** How to walk a set, and what is in it. */
    lemma Walk(p: Place)
      requires Shape()
      ensures sets.Table(p).head == HashTables.At(sets.In(p), 0)
      ensures forall k :: 0 <= k < |sets.In(p)| ==> sets.In(p)[k].next == HashTables.At(sets.In(p), k + 1)
      ensures CordsAt(Abs(), p) == Cords(sets.In(p), cords)
    {
      hide CordTables.Valid, Cords;
      sets.Links(p);
    }

    /** HASH_ITER over a set that takes out and destroys every cord. */
    method FreeCords(p: Place, ghost who: Option<nat>)
      requires Shape()
      requires forall k :: 0 <= k < |sets.In(p)| ==> who != Some(sets.In(p)[k].key)
      modifies this`cords, this`ownerOf, this`log, pool, sets.Objs, sets.Elts
      ensures Shape() && sets.Objs == old(sets.Objs) && sets.Elts == old(sets.Elts)
      ensures Abs() == FreeSet(old(Abs()), p, who)
    {
      hide Braid.Shape, Braid.Abs, Cords, FreeSome, FreeSet, WithCords;
      ghost var s, P, i := Abs(), sets.In(p), 0;
      Walk(p);
      FreeSomeEnds(s, p, who);
      var c := sets.Table(p).head;
      var tmp: Handle? := null;
      if c != null {
        tmp := c.next;
      }
      while c != null
        invariant i <= |P| && sets.In(p) == P[i..]
        invariant c == HashTables.At(sets.In(p), 0) && tmp == HashTables.At(sets.In(p), 1)
        invariant Shape() && sets.Objs == old(sets.Objs) && sets.Elts == old(sets.Elts)
        invariant Abs() == FreeSome(s, p, who, i)
        decreases |P| - i
      {
        FreeFirst(p, c, who);
        FreeSomeNext(s, p, who, i);
        i := i + 1;
        Walk(p);
        c := tmp;
        if tmp != null {
          tmp := tmp.next;
        }
      }
    }

    /** braidcnt */
    method CountNormal() returns (ret: nat)
      requires Shape()
      ensures ret == Cnt(Abs().runable)
    {
      hide CordTables.Valid, Pool.Valid, MemOk, Inv, Counted, FreedByOthers, Cords;
      ghost var R, k := sets.In(AsRunable), 0;
      ghost var cs := Abs().runable;
      sets.Links(AsRunable);
      ret := 0;
      var c := sets.runable.head;
      while c != null
        invariant k <= |R| && c == HashTables.At(R, k)
        invariant ret + Cnt(cs[k..]) == Cnt(cs)
        decreases |R| - k
      {
        InMemory(AsRunable, k);
        assert cs[k..][1..] == cs[k + 1..];
        if !cords[c.key].system {
          ret := ret + 1;
        }
        c, k := c.next, k + 1;
      }
    }

    /** braidsys */
    method CountSystem() returns (ret: nat)
      requires Shape()
      ensures ret == |Abs().runable| - Cnt(Abs().runable)
    {
      hide CordTables.Valid, Pool.Valid, MemOk, Inv, Counted, FreedByOthers, Cords;
      ghost var R, k := sets.In(AsRunable), 0;
      ghost var cs := Abs().runable;
      sets.Links(AsRunable);
      ret := 0;
      var c := sets.runable.head;
      while c != null
        invariant k <= |R| && c == HashTables.At(R, k)
        invariant ret + |cs[k..]| - Cnt(cs[k..]) == |cs| - Cnt(cs)
        decreases |R| - k
      {
        InMemory(AsRunable, k);
        assert cs[k..][1..] == cs[k + 1..];
        if cords[c.key].system {
          ret := ret + 1;
        }
        c, k := c.next, k + 1;
      }
    }

    /** braidpop of a set that is not empty, as the next cord to run. */
    method PopFirst(c: Handle)
      requires Shape() && ctx == Back
      requires sets.In(AsRunable) != [] && c == sets.In(AsRunable)[0]
      modifies this, sets.Objs, sets.Elts
      ensures Shape() && ctx == InCord && curr == c
      ensures sets.Objs == old(sets.Objs) && sets.Elts == old(sets.Elts)
      ensures Abs() == Popped(old(Abs()))
    {
      hide CordTables.Valid, Pool.Valid, MemOk, Inv, Counted, FreedByOthers, Cords;
      ghost var s, R := Abs(), sets.In(AsRunable);
      InMemory(AsRunable, 0);
      sets.Del(AsRunable, c, 0);
      CordsWithout(R, 0, cords);
      assert Remove(s.runable, 0) == s.runable[1..];
      curr, ctx := c, InCord;
      PopCounted(s);
    }

    /** The choice in `schedule`, up to the switch. */
    method Choose() returns (c: Handle?)
      requires Shape() && ctx == Back
      modifies this, sets.Objs, sets.Elts
      ensures Shape()
      ensures sets.Objs == old(sets.Objs) && sets.Elts == old(sets.Elts)
      ensures c != null <==> HasNext(old(Abs()))
      ensures c == null ==> ctx == Back && Abs() == old(Abs())
      ensures c != null ==> ctx == InCord && curr == c && Abs() == Popped(old(Abs()))
    {
      hide CordTables.Valid, Pool.Valid, MemOk, Inv, Counted, FreedByOthers, Cords, Popped;
      Walk(AsRunable);
      var cnt := CountNormal();
      var blk := sets.Count(AsBlocked);
      c := null;
      if cnt > 0 || blk > 0 {
        c := sets.runable.head;
        if c != null {
          PopFirst(c);
        }
      }
    }

    /** The executing cord, and that the zombies are others. */
    lemma ExecutionIs()
      requires Shape()
      ensures this !in sets.Objs && Abs().exec == Execution()
      ensures ctx == Back ==> Execution() == Returning
      ensures ctx == InCord ==> curr != null && curr.key in cords
      ensures ctx == InCord ==>
                Execution() == Running(Cord(curr.key, cords[curr.key].system, cords[curr.key].val, cords[curr.key].at))
      ensures ctx == InCord ==> forall k :: 0 <= k < |sets.In(AsZombie)| ==> sets.In(AsZombie)[k].key != curr.key
    {
      hide CordTables.Valid, Pool.Valid, MemOk, Inv, Counted, FreedByOthers, Cords;
      if ctx == InCord {
        CurrInMemory();
      }
    }

    /** The return of `braidblock` in the executing cord. */
    method BlockReturns(c: Handle)
      requires Shape() && ctx == InCord && curr == c
      modifies this`log
      ensures Shape() && old(Abs()).exec.Running?
      ensures var s := old(Abs());
              Abs() == s.(log := s.log + [Returned(s.exec.cord.id, s.exec.cord.val)])
    {
      hide CordTables.Valid, Pool.Valid, MemOk, Inv, Counted, FreedByOthers, Cords;
      ghost var s := Abs();
      ExecutionIs();
      log := log + [Returned(c.key, cords[c.key].val)];
      MemEvent(cords, ownerOf, count, s.log, Returned(c.key, cords[c.key].val));
      ReturnedCounted(s, c.key, cords[c.key].val);
    }

    /** What the context that goes on does in `schedule` after the switch, and
        at the end of `braidblock`; a fresh cord is not in `schedule`. */
    method Continue(c: Handle?)
      requires Shape()
      requires if c == null then ctx == Back else ctx == InCord && curr == c
      modifies this`cords, this`ownerOf, this`log, pool, sets.Objs, sets.Elts
      ensures Shape() && sets.Objs == old(sets.Objs) && sets.Elts == old(sets.Elts)
      ensures Abs() == Resume(old(Abs()))
    {
      hide Braid.Shape, Braid.Abs, Braid.Execution, FreeSet;
      ExecutionIs();
      if c != null && cords[c.key].at.Entry? {
        return;
      }
      var at := if c == null then AfterYield else cords[c.key].at;
      FreeCords(AsZombie, Executor(Execution()));
      FreeSetExec(old(Abs()), AsZombie, Executor(old(Execution())));
      if at.AfterBlock? {
        BlockReturns(c);
      }
    }

    /** schedule */
    method Schedule()
      requires Shape() && ctx == Back
      modifies this, pool, sets.Objs, sets.Elts
      ensures Valid() && sets.Objs == old(sets.Objs) && sets.Elts == old(sets.Elts)
      ensures Abs() == Dispatch(old(Abs()))
      ensures ctx == Back <==> Idle(old(Abs()))
    {
      IdleIs(Abs());
      DispatchKeepsCounted(Abs());
      hide Braid.Abs, Inv, HasNext, Popped, Resume, Dispatch;
      hide CordTables.Valid, Pool.Valid, MemOk, Counted, FreedByOthers, Cords;
      DispatchIs(Abs());
      var c := Choose();
      Continue(c);
    }

    /** Three chunks for a cord; failure ends the process. */
    method AllocChunks() returns (ok: bool, chunks: seq<nat>)
      requires pool.Valid() && pool.live == ownerOf.Keys
      modifies pool
      ensures pool.Valid()
      ensures ok <==> |old(pool.live)| + 3 <= pool.Capacity()
      ensures ok ==> Fresh3(chunks, ownerOf, pool.live)
    {
      hide Pool.Valid, Taken;
      ghost var was := pool.live;
      TakenNone(was);
      chunks, ok := [], true;
      for i := 0 to 3
        invariant pool.Valid() && Taken(chunks, was, pool.live) && |chunks| == i
        invariant |pool.live| == |was| + i
      {
        ghost var now := pool.live;
        var c := pool.Alloc();
        if c == 0 {
          return false, chunks;
        }
        pool.LiveCount();
        TakenMore(chunks, was, now, c);
        chunks := chunks + [c];
      }
      pool.LiveCount();
      TakenThree(chunks, ownerOf, pool.live);
    }

    /** The probe for an id in braidvadd. */
    method Probe()
      requires sets.Valid() && this !in sets.Objs
      modifies this`count
      ensures count == NextId(Set(AsRunable), old(count))
    {
      hide CordTables.Valid, Cords, Sched.NextId;
      ghost var cs, was := Set(AsRunable), count;
      var tgt := sets.Find(AsRunable, count);
      while tgt != null
        invariant tgt != null ==> tgt in sets.In(AsRunable) && tgt.key == count
        invariant tgt == null ==> forall k :: 0 <= k < |sets.In(AsRunable)| ==> sets.In(AsRunable)[k].key != count
        invariant NextId(cs, count) == NextId(cs, was)
        decreases NextId(cs, was) - count, tgt != null
      {
        ProbeOn(cs, count, tgt);
        count := count + 1;
        tgt := sets.Find(AsRunable, count);
      }
      NotFound(AsRunable, count);
      ProbeEnds(cs, count);
    }

    lemma ProbeOn(cs: seq<Cord>, id: nat, tgt: Handle)
      requires tgt in sets.In(AsRunable) && tgt.key == id && cs == Set(AsRunable)
      ensures NextId(cs, id) == NextId(cs, id + 1) > id
    {
      hide Cords;
      var k :| 0 <= k < |sets.In(AsRunable)| && sets.In(AsRunable)[k] == tgt;
      assert cs[k].id == id;
      assert Sched.Find(cs, id) <= k;
    }

    /** No cord has the id. */
    ghost predicate IsNew(id: nat)
      reads this, sets.runable`order, sets.blocked`order, sets.zombies`order
    {
      IsNewFacts(id) == true
    }

    ghost predicate IsNewFacts(id: nat)
      reads this, sets.runable`order, sets.blocked`order, sets.zombies`order
    {
      && TimesFreed(log, id) == 0
      && (ctx.InCord? && curr != null ==> curr.key != id)
      && (forall q, j :: 0 <= j < |sets.In(q)| ==> sets.In(q)[j].key != id)
    }

    /** The next id is new. */
    lemma NewId()
      requires Sound() && Inv(Abs())
      ensures NextId(Set(AsRunable), count) == count && IsNew(count)
    {
      hide CordTables.Valid, Pool.Valid, MemOk, FreedByOthers, Cords;
      var s := Abs();
      NextIdIsCount(s);
      assert Places(s, count) == 0;
      hide Counted, Inv;
      forall q, j | 0 <= j < |sets.In(q)| ensures sets.In(q)[j].key != count {
        assert PlaceTotal(s, q, count) == 0;
        Absent(CordsAt(s, q), count);
        assert CordsAt(s, q)[j].id == sets.In(q)[j].key;
      }
    }

    /** braidvadd of a cord with its chunks and a new id. */
    method Enter(system: bool, chunks: seq<nat>)
      requires Sound() && Inv(Entered(Abs(), system)) && (ctx == Before || ctx == InCord)
      requires pool.Valid() && Fresh3(chunks, ownerOf, pool.live) && IsNew(count)
      modifies this, sets.Objs, sets.Elts
      ensures Valid() && count == old(count) + 1
      ensures fresh(sets.Objs - old(sets.Objs)) && fresh(sets.Elts - old(sets.Elts))
      ensures Abs() == Entered(old(Abs()), system)
    {
      hide CordTables.Valid, Pool.Valid, MemOk, Inv, Counted, FreedByOthers, Cords, TimesFreed, Own, Fresh3;
      ghost var s, was := Abs(), cords;
      ghost var R, B, Z := sets.In(AsRunable), sets.In(AsBlocked), sets.In(AsZombie);
      InvCounted(Entered(s, system));
      var id := count;
      MemAdd(cords, ownerOf, id, log, CordData(system, 0, Entry, chunks), pool.live);
      cords := cords[id := CordData(system, 0, Entry, chunks)];
      ownerOf := Own(ownerOf, chunks, id);
      count := id + 1;
      var c := new Handle(id);
      sets.Add(AsRunable, c);
      assert cords - {id} == was - {id};
      CordsUnchanged(R, was, cords, id);
      CordsUnchanged(B, was, cords, id);
      CordsUnchanged(Z, was, cords, id);
      if ctx.InCord? {
        CordUnchanged(curr.key, was, cords, id);
      }
      CordsSnoc(R, c, cords);
    }

    /** braidvadd; failure ends the process. */
    method Add(system: bool) returns (ok: bool, id: nat)
      requires Valid() && (ctx == Before || ctx == InCord)
      modifies this, pool, sets.Objs, sets.Elts
      ensures ok <==> 3 * |old(cords)| + 3 <= pool.Capacity()
      ensures ok ==> Valid() && id == old(count)
      ensures ok ==> fresh(sets.Objs - old(sets.Objs)) && fresh(sets.Elts - old(sets.Elts))
      ensures ok ==> Abs() == Next(old(Abs()), Step.Add(system))
    {
      hide *;
      ValidMeans();
      var chunks;
      ok, chunks := AllocChunks();
      id := 0;
      if ok {
        id := AddWith(system, chunks);
      }
    }

    lemma ValidMeans()
      requires Valid()
      ensures Sound() && Shape() && Inv(Abs()) && pool !in sets.Objs
      ensures pool.Valid() && pool.live == ownerOf.Keys && |pool.live| == 3 * |cords|
    {
      MemSize(cords, ownerOf, count, log);
    }

    method AddWith(system: bool, chunks: seq<nat>) returns (id: nat)
      requires Sound() && Inv(Abs()) && (ctx == Before || ctx == InCord)
      requires pool.Valid() && Fresh3(chunks, ownerOf, pool.live)
      modifies this, sets.Objs, sets.Elts
      ensures Valid() && id == old(count)
      ensures fresh(sets.Objs - old(sets.Objs)) && fresh(sets.Elts - old(sets.Elts))
      ensures Abs() == Next(old(Abs()), Step.Add(system))
    {
      hide CordTables.Valid, Pool.Valid, Inv, Counted, FreedByOthers, Cords, MemOk;
      hide Sched.NextId, Enabled, Fresh3, Braid.IsNew, Entered;
      AddCounted(Abs(), system);
      NewId();
      Probe();
      id := count;
      Enter(system, chunks);
    }

    /** braidstart, up to the first switch. */
    method Start()
      requires Valid() && ctx == Before
      modifies this, pool, sets.Objs, sets.Elts
      ensures Valid() && fresh(sets.Objs - old(sets.Objs)) && sets.Elts == old(sets.Elts)
      ensures Abs() == Next(old(Abs()), Step.Start)
    {
      hide CordTables.Valid, Pool.Valid, MemOk, Inv, Counted, FreedByOthers, Cords, Dispatch;
      SuspendedKeeps(Abs(), Step.Start);
      ctx := Back;
      Schedule();
    }

    /** braidyield */
    method Yield()
      requires Valid() && (ctx == Before || ctx == InCord)
      modifies this, pool, sets.Objs, sets.Elts
      ensures Valid() && fresh(sets.Objs - old(sets.Objs)) && sets.Elts == old(sets.Elts)
      ensures Abs() == if old(ctx) == Before then old(Abs()) else Next(old(Abs()), Step.Yield)
    {
      hide CordTables.Valid, Pool.Valid, MemOk, Inv, Counted, FreedByOthers, Cords, Dispatch;
      if curr == null {
        return;
      }
      SuspendedKeeps(Abs(), Step.Yield);
      PutAside(AsRunable, AfterYield);
      Schedule();
    }

    /** braidblock, up to the switch to the next context. */
    method Block(why: Why)
      requires Valid() && ctx == InCord
      modifies this, pool, sets.Objs, sets.Elts
      ensures Valid() && fresh(sets.Objs - old(sets.Objs)) && sets.Elts == old(sets.Elts)
      ensures Abs() == Next(old(Abs()), Step.Block(why))
    {
      hide CordTables.Valid, Pool.Valid, MemOk, Inv, Counted, FreedByOthers, Cords, Dispatch;
      SuspendedKeeps(Abs(), Step.Block(why));
      PutAside(AsBlocked, AfterBlock(why));
      Schedule();
    }

    /** braidexit */
    method Exit()
      requires Valid() && ctx == InCord
      modifies this, pool, sets.Objs, sets.Elts
      ensures Valid() && fresh(sets.Objs - old(sets.Objs)) && sets.Elts == old(sets.Elts)
      ensures Abs() == Next(old(Abs()), Step.Exit)
    {
      hide CordTables.Valid, Pool.Valid, MemOk, Inv, Counted, FreedByOthers, Cords, Dispatch;
      SuspendedKeeps(Abs(), Step.Exit);
      ExecutionIs();
      var at := cords[curr.key].at;
      PutAside(AsZombie, at);
      Schedule();
    }

    /** braidstop */
    method Stop()
      requires Valid() && ctx == InCord
      modifies this, pool, sets.Objs, sets.Elts
      ensures Valid() && fresh(sets.Objs - old(sets.Objs)) && sets.Elts == old(sets.Elts)
      ensures Abs() == Next(old(Abs()), Step.Stop)
    {
      hide CordTables.Valid, Pool.Valid, MemOk, Inv, Counted, FreedByOthers, Cords, Dispatch;
      SuspendedKeeps(Abs(), Step.Stop);
      CurrInMemory();
      ExecutionIs();
      FreeCords(AsRunable, Some(curr.key));
      ExecutionIs();
      var at := cords[curr.key].at;
      PutAside(AsZombie, at);
      Schedule();
    }

    /** braidstart returns. */
    method Close()
      requires Shape() && ctx == Back && Inv(Abs().(exec := Sched.Finished))
      modifies this`ctx
      ensures Valid() && Abs() == old(Abs()).(exec := Sched.Finished)
      ensures cords == map[] && pool.live == {}
    {
      hide CordTables.Valid, Pool.Valid, MemOk, FreedByOthers, Cords, Counted;
      InvCounted(Abs().(exec := Sched.Finished));
      NoneLeft(Abs().(exec := Sched.Finished), cords, ownerOf);
      hide Inv;
      ctx := Gone;
    }

    /** The end of braidstart: the cords left over are destroyed. */
    method Finish()
      requires Valid() && ctx == Back
      modifies this, pool, sets.Objs, sets.Elts
      ensures Valid() && sets.Objs == old(sets.Objs) && sets.Elts == old(sets.Elts)
      ensures Abs() == Ended(old(Abs()))
      ensures cords == map[] && pool.live == {}
    {
      hide Braid.Valid, Braid.Shape, Braid.Abs, FreeSet, Inv;
      ValidMeans();
      ExecutionIs();
      EndedKeeps(Abs());
      FreeCords(AsRunable, None);
      FreeCords(AsBlocked, None);
      Close();
    }
  }

  /** A new cord, with the next id. */
  ghost function Entered(s: State, system: bool): State {
    s.(runable := s.runable + [Cord(s.count, system, 0, Entry)], count := s.count + 1)
  }

  lemma AddCounted(s: State, system: bool)
    requires Inv(s) && (s.exec.Setup? || s.exec.Running?)
    ensures Next(s, Step.Add(system)) == Entered(s, system) && Inv(Entered(s, system))
  {
    AddKeeps(s, system);
    NextIdIsCount(s);
  }

  lemma MemSize(cords: Heap, ownerOf: map<nat, nat>, count: nat, log: seq<Event>)
    requires MemOk(cords, ownerOf, count, log)
    ensures |ownerOf.Keys| == 3 * |cords|
  {
  }

  /** The chunks were taken from a pool in which `was` was live. */
  ghost predicate Taken(chunks: seq<nat>, was: set<nat>, live: set<nat>) {
    TakenFacts(chunks, was, live) == true
  }

  ghost predicate TakenFacts(chunks: seq<nat>, was: set<nat>, live: set<nat>) {
    && (forall k :: 0 <= k < |chunks| ==> chunks[k] !in was)
    && (forall j, k :: 0 <= j < k < |chunks| ==> chunks[j] != chunks[k])
    && live == was + set c | c in chunks
  }

  lemma TakenNone(was: set<nat>)
    ensures Taken([], was, was)
  {
  }

  lemma TakenMore(chunks: seq<nat>, was: set<nat>, live: set<nat>, c: nat)
    requires Taken(chunks, was, live) && c !in live
    ensures Taken(chunks + [c], was, live + {c}) && |live + {c}| == |live| + 1
  {
    assert (set x | x in chunks + [c]) == (set x | x in chunks) + {c};
  }

  lemma TakenThree(chunks: seq<nat>, ownerOf: map<nat, nat>, live: set<nat>)
    requires |chunks| == 3 && Taken(chunks, ownerOf.Keys, live)
    ensures Fresh3(chunks, ownerOf, live)
  {
    assert (set x | x in chunks) == {chunks[0], chunks[1], chunks[2]};
  }

  lemma ProbeEnds(cs: seq<Cord>, id: nat)
    requires Sched.Find(cs, id) == |cs|
    ensures NextId(cs, id) == id
  {
  }

  lemma InvCounted(s: State)
    requires Inv(s)
    ensures InCensus(s)
  {
  }

  lemma EndedKeeps(s: State)
    requires Inv(s) && s.exec.Returning?
    ensures Inv(Ended(s))
  {
    FinishKeeps(s);
  }

  /** At the end no cord and no chunk is left. */
  lemma NoneLeft(s: State, cords: Heap, ownerOf: map<nat, nat>)
    requires Inv(s) && s.exec.Finished? && MemOk(cords, ownerOf, s.count, s.log)
    ensures cords == map[] && ownerOf == map[]
  {
    forall id: nat ensures id !in cords {
      assert Places(s, id) == TimesFreed(s.log, id);
    }
  }

  /** The first runnable cord executes. */
  ghost function Popped(s: State): State
    requires s.runable != []
  {
    s.(exec := Running(s.runable[0]), runable := s.runable[1..])
  }

  lemma PopCounted(s: State)
    requires Counted(s) && s.exec.Returning? && s.runable != []
    ensures Counted(Popped(s))
  {
    forall id: nat ensures Places(Popped(s), id) == Places(s, id) {
    }
  }

  lemma DispatchIs(s: State)
    requires s.exec.Returning?
    ensures HasNext(s) ==> s.runable != []
    ensures Dispatch(s) == Resume(if HasNext(s) then Popped(s) else s)
  {
  }

  /** Nothing is runnable, or nothing but system cords is and nothing is blocked. */
  ghost predicate Idle(s: State) {
    s.runable == [] || (s.blocked == [] && forall k :: 0 <= k < |s.runable| ==> s.runable[k].system)
  }

  lemma IdleIs(s: State)
    ensures Dispatch(s).exec.Returning? <==> Idle(s)
    ensures HasNext(s) <==> !Idle(s)
  {
    CntIs(s.runable);
    DispatchSets(s);
  }

  lemma DispatchKeepsCounted(s: State)
    requires Counted(s) && FreedByOthers(s.log) && s.exec.Returning?
    ensures Inv(Dispatch(s))
  {
    DispatchKeeps(s);
  }

  lemma ReturnedCounted(s: State, id: nat, val: nat)
    requires Counted(s) && FreedByOthers(s.log)
    ensures InCensus(s.(log := s.log + [Returned(id, val)]))
  {
    var t := s.(log := s.log + [Returned(id, val)]);
    forall i: nat ensures Places(t, i) == Places(s, i) {
      OtherTimes(s.log, Returned(id, val), i);
    }
  }
}
