/** The three sets of cords that a braid keeps, over hash tables that share
    the hash handle embedded in each cord. */
module CordSets {
  import opened HashTables
  import opened Sched

  /** What `cord_s` holds beside its id and its hash handle. */
  datatype CordData = CordData(system: bool, val: nat, at: Point, lambdas: seq<nat>)

  /** The allocated cords, by id. */
  type Heap = map<nat, CordData>

  function CordOf(id: nat, cords: Heap): Cord {
    if id in cords then Cord(id, cords[id].system, cords[id].val, cords[id].at) else Cord(id, false, 0, Entry)
  }

  /** The cords with the handles `s`. */
  function Cords(s: seq<Handle>, cords: Heap): (r: seq<Cord>)
    ensures |r| == |s|
    ensures forall k :: 0 <= k < |s| ==> r[k] == CordOf(s[k].key, cords)
  {
    seq(|s|, k requires 0 <= k < |s| => CordOf(s[k].key, cords))
  }

  ghost function Buckets(t: HashTable): set<object>
    reads t`buckets
  {
    if t.buckets == null then {} else {t.buckets}
  }

  /** The sets are in order and share no part: each cord's one hash handle is
      in one table at most. */
  ghost predicate Three(t: HashTable, u: HashTable, v: HashTable)
    reads t, u, v, t.buckets, u.buckets, v.buckets
    reads t.order`prev, t.order`next, t.order`hashv, t.order`hhPrev, t.order`hhNext
    reads u.order`prev, u.order`next, u.order`hashv, u.order`hhPrev, u.order`hhNext
    reads v.order`prev, v.order`next, v.order`hashv, v.order`hhPrev, v.order`hhNext
  {
    ThreeFacts(t, u, v) == true
  }

  ghost predicate ThreeFacts(t: HashTable, u: HashTable, v: HashTable)
    reads t, u, v, t.buckets, u.buckets, v.buckets
    reads t.order`prev, t.order`next, t.order`hashv, t.order`hhPrev, t.order`hhNext
    reads u.order`prev, u.order`next, u.order`hashv, u.order`hhPrev, u.order`hhNext
    reads v.order`prev, v.order`next, v.order`hashv, v.order`hhPrev, v.order`hhNext
  {
    && t.Valid() && u.Valid() && v.Valid()
    && t != u && t != v && u != v
    && Buckets(t) !! Buckets(u) && Buckets(t) !! Buckets(v) && Buckets(u) !! Buckets(v)
    && Disjoint(t.order, u.order) && Disjoint(t.order, v.order) && Disjoint(u.order, v.order)
  }

  ghost predicate Disjoint(a: seq<Handle>, b: seq<Handle>) {
    forall i, j :: 0 <= i < |a| && 0 <= j < |b| ==> a[i] != b[j]
  }

  /** HASH_ADD_CORD to `t`; `u` and `v` are the other sets. */
  method AddCord(t: HashTable, e: Handle, ghost u: HashTable, ghost v: HashTable)
    requires Three(t, u, v)
    requires Disjoint([e], t.order) && Disjoint([e], u.order) && Disjoint([e], v.order)
    requires forall i :: 0 <= i < |t.order| ==> t.order[i].key != e.key
    modifies t, t.buckets, t.order`next, t.order`hhPrev, t.order`hhNext
    modifies e`hashv, e`prev, e`next, e`hhPrev, e`hhNext
    ensures Three(t, u, v)
    ensures t.order == old(t.order) + [e]
    ensures t.buckets == old(t.buckets) || fresh(t.buckets)
  {
    hide HashTable.Valid;
    assert [e][0] == e;
    t.Add(e);
  }

  /** AddCord, for the second of three sets. */
  method AddSecond(t: HashTable, e: Handle, ghost u: HashTable, ghost v: HashTable)
    requires Three(u, t, v)
    requires Disjoint([e], t.order) && Disjoint([e], u.order) && Disjoint([e], v.order)
    requires forall i :: 0 <= i < |t.order| ==> t.order[i].key != e.key
    modifies t, t.buckets, t.order`next, t.order`hhPrev, t.order`hhNext
    modifies e`hashv, e`prev, e`next, e`hhPrev, e`hhNext
    ensures Three(u, t, v)
    ensures t.order == old(t.order) + [e]
    ensures t.buckets == old(t.buckets) || fresh(t.buckets)
  {
    ThreeTurned(u, t, v);
    AddCord(t, e, u, v);
    ThreeTurned(t, u, v);
  }

  /** AddCord, for the third of three sets. */
  method AddThird(t: HashTable, e: Handle, ghost u: HashTable, ghost v: HashTable)
    requires Three(u, v, t)
    requires Disjoint([e], t.order) && Disjoint([e], u.order) && Disjoint([e], v.order)
    requires forall i :: 0 <= i < |t.order| ==> t.order[i].key != e.key
    modifies t, t.buckets, t.order`next, t.order`hhPrev, t.order`hhNext
    modifies e`hashv, e`prev, e`next, e`hhPrev, e`hhNext
    ensures Three(u, v, t)
    ensures t.order == old(t.order) + [e]
    ensures t.buckets == old(t.buckets) || fresh(t.buckets)
  {
    ThreeTurned(u, v, t);
    AddCord(t, e, u, v);
    ThreeTurned(t, u, v);
  }

  lemma DistinctElements(t: HashTable)
    requires t.Valid()
    ensures forall i, j :: 0 <= i < j < |t.order| ==> t.order[i] != t.order[j]
  {
  }

  /** HASH_DEL of the cord at `i` of `t`. */
  method DelCord(t: HashTable, e: Handle, ghost i: nat, ghost u: HashTable, ghost v: HashTable)
    requires Three(t, u, v)
    requires i < |t.order| && e == t.order[i]
    modifies t, t.buckets, t.order`prev, t.order`next, t.order`hhPrev, t.order`hhNext
    ensures Three(t, u, v)
    ensures t.order == Without(old(t.order), i)
    ensures Disjoint([e], t.order) && Disjoint([e], u.order) && Disjoint([e], v.order)
    ensures t.buckets == old(t.buckets) || t.buckets == null
  {
    hide HashTable.Valid;
    DistinctElements(t);
    WithoutElements(t.order, i);
    t.Delete(e, i);
  }

  lemma ThreeTurned(t: HashTable, u: HashTable, v: HashTable)
    requires Three(t, u, v)
    ensures Three(u, t, v) && Three(v, t, u)
  {
    hide HashTable.Valid;
  }

  lemma CordsWithout(s: seq<Handle>, k: nat, cords: Heap)
    requires k < |s|
    ensures Cords(Without(s, k), cords) == Remove(Cords(s, cords), k)
  {
    hide Cords;
    var a, b := Cords(Without(s, k), cords), Remove(Cords(s, cords), k);
    forall j | 0 <= j < |a| ensures a[j] == b[j] {
      assert Without(s, k)[j] == s[if j < k then j else j + 1];
    }
  }

  lemma CordsSnoc(s: seq<Handle>, e: Handle, cords: Heap)
    ensures Cords(s + [e], cords) == Cords(s, cords) + [CordOf(e.key, cords)]
  {
  }

  /** A change elsewhere in the heap does not change a cord. */
  lemma CordUnchanged(k: nat, cords: Heap, cords': Heap, id: nat)
    requires k != id && cords' - {id} == cords - {id}
    ensures CordOf(k, cords') == CordOf(k, cords)
  {
    assert k in cords <==> k in cords - {id};
    assert k in cords' <==> k in cords' - {id};
    if k in cords {
      assert cords[k] == (cords - {id})[k];
      assert cords'[k] == (cords' - {id})[k];
    }
  }

  lemma CordsUnchanged(s: seq<Handle>, cords: Heap, cords': Heap, id: nat)
    requires forall k :: 0 <= k < |s| ==> s[k].key != id
    requires cords' - {id} == cords - {id}
    ensures Cords(s, cords') == Cords(s, cords)
  {
    forall k | 0 <= k < |s| ensures CordOf(s[k].key, cords') == CordOf(s[k].key, cords) {
      CordUnchanged(s[k].key, cords, cords', id);
    }
  }

  /** The sets `runable`, `blocked` and `zombies` of a braid. */
  class CordTables {
    const runable: HashTable
    const blocked: HashTable
    const zombies: HashTable

    /** The objects the tables consist of, and all cords that were in them. */
    ghost var Objs: set<object>
    ghost var Elts: set<Handle>

    function Table(p: Place): HashTable {
      match p
      case AsRunable => runable
      case AsBlocked => blocked
      case AsZombie => zombies
    }

    /** The cords in a set, in the order in which they came. */
    ghost function In(p: Place): seq<Handle>
      reads Table(p)`order
    {
      Table(p).order
    }

    ghost predicate Closed(t: HashTable)
      reads this, t`buckets, t`order
    {
      && t in Objs && Buckets(t) <= Objs
      && (forall k :: 0 <= k < |t.order| ==> t.order[k] in Elts)
    }

    ghost predicate Valid()
      reads this, Objs, Elts
    {
      ValidFacts() == true
    }

    ghost predicate ValidFacts()
      reads this, Objs, Elts
    {
      && this in Objs
      && runable in Objs && blocked in Objs && zombies in Objs
      && Closed(runable) && Closed(blocked) && Closed(zombies)
      && Three(runable, blocked, zombies)
    }

    constructor (hash: nat -> nat)
      ensures Valid() && fresh(Objs) && Elts == {}
      ensures In(AsRunable) == In(AsBlocked) == In(AsZombie) == []
    {
      var r := new HashTable(hash);
      var b := new HashTable(hash);
      var z := new HashTable(hash);
      hide HashTable.Valid;
      runable, blocked, zombies := r, b, z;
      Objs, Elts := {this, r, b, z}, {};
    }

    lemma Parts()
      requires Valid()
      ensures this in Objs && runable in Objs && blocked in Objs && zombies in Objs
      ensures Closed(runable) && Closed(blocked) && Closed(zombies)
      ensures Three(runable, blocked, zombies)
      ensures runable != blocked && runable != zombies && blocked != zombies
    {
      hide HashTable.Valid;
    }

    lemma Whole()
      requires this in Objs && runable in Objs && blocked in Objs && zombies in Objs
      requires Closed(runable) && Closed(blocked) && Closed(zombies)
      requires Three(runable, blocked, zombies)
      ensures Valid()
    {
    }

    /** HASH_ADD_CORD */
    method Add(p: Place, e: Handle)
      requires Valid()
      requires Disjoint([e], In(AsRunable)) && Disjoint([e], In(AsBlocked)) && Disjoint([e], In(AsZombie))
      requires forall k :: 0 <= k < |In(p)| ==> In(p)[k].key != e.key
      modifies Objs, Elts
      modifies e
      ensures Valid() && fresh(Objs - old(Objs)) && Elts == old(Elts) + {e}
      ensures In(p) == old(In(p)) + [e]
      ensures forall q :: q != p ==> In(q) == old(In(q))
    {
      hide HashTable.Valid, CordTables.Valid, Three, Disjoint;
      Parts();
      match p {
        case AsRunable => AddCord(runable, e, blocked, zombies);
        case AsBlocked => AddSecond(blocked, e, runable, zombies);
        case AsZombie => AddThird(zombies, e, runable, blocked);
      }
      Objs, Elts := Objs + Buckets(Table(p)), Elts + {e};
      Whole();
    }

    /** HASH_DEL of the cord at `k` of a set. */
    method Del(p: Place, e: Handle, ghost k: nat)
      requires Valid() && k < |In(p)| && e == In(p)[k]
      modifies Objs, Elts
      ensures Valid() && Objs == old(Objs) && Elts == old(Elts)
      ensures In(p) == Without(old(In(p)), k)
      ensures forall q :: q != p ==> In(q) == old(In(q))
      ensures Disjoint([e], In(AsRunable)) && Disjoint([e], In(AsBlocked)) && Disjoint([e], In(AsZombie))
    {
      hide HashTable.Valid;
      match p {
        case AsRunable => DelCord(runable, e, k, blocked, zombies);
        case AsBlocked =>
          ThreeTurned(runable, blocked, zombies);
          DelCord(blocked, e, k, runable, zombies);
          ThreeTurned(blocked, runable, zombies);
        case AsZombie =>
          ThreeTurned(runable, blocked, zombies);
          DelCord(zombies, e, k, runable, blocked);
          ThreeTurned(zombies, runable, blocked);
      }
    }

    /** HASH_DEL of the cord at `k` of one set and HASH_ADD_CORD to another. */
    method Rehang(from: Place, to: Place, e: Handle, ghost k: nat)
      requires Valid() && from != to && k < |In(from)| && e == In(from)[k]
      requires forall j :: 0 <= j < |In(to)| ==> In(to)[j].key != e.key
      modifies Objs, Elts
      ensures Valid() && fresh(Objs - old(Objs)) && Elts == old(Elts)
      ensures In(from) == Without(old(In(from)), k) && In(to) == old(In(to)) + [e]
      ensures forall q :: q != from && q != to ==> In(q) == old(In(q))
    {
      hide CordTables.Valid;
      InElts(from);
      Del(from, e, k);
      Add(to, e);
    }

    /** How to walk a set. */
    lemma Links(p: Place)
      requires Valid()
      ensures Table(p).head == HashTables.At(In(p), 0)
      ensures forall k :: 0 <= k < |In(p)| ==> In(p)[k].next == HashTables.At(In(p), k + 1)
    {
      forall k | 0 <= k < |In(p)| ensures In(p)[k].next == HashTables.At(In(p), k + 1) {
        assert InOrder(In(p), k);
      }
    }

    lemma InElts(p: Place)
      requires Valid()
      ensures forall k :: 0 <= k < |In(p)| ==> In(p)[k] in Elts
    {
    }

    /** HASH_FIND_CORD */
    method Find(p: Place, id: nat) returns (out: Handle?)
      requires Valid()
      ensures out != null ==> out in In(p) && out.key == id
      ensures out == null ==> forall k :: 0 <= k < |In(p)| ==> In(p)[k].key != id
    {
      out := Table(p).Find(id);
    }

    /** HASH_COUNT */
    method Count(p: Place) returns (n: nat)
      requires Valid()
      ensures n == |In(p)|
    {
      n := if Table(p).head == null then 0 else Table(p).numItems;
    }
  }
}
