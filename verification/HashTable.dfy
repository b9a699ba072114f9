/** The hash table of uthash.h: bucket chains for lookup, and a doubly linked
    list of the same elements in the order in which they were added. */
module HashTables {
  import opened Bits

  const INITIAL_NUM_BUCKETS: nat := 32
  const INITIAL_NUM_BUCKETS_LOG2: nat := 5
  const BKT_CAPACITY_THRESH: nat := 10

  /** UT_hash_handle of a structure with the key `key`. */
  class Handle {
    const key: nat
    var hashv: nat
    var prev: Handle?
    var next: Handle?
    var hhPrev: Handle?
    var hhNext: Handle?

    constructor (key: nat)
      ensures this.key == key
    {
      this.key, hashv := key, 0;
      prev, next, hhPrev, hhNext := null, null, null, null;
    }
  }

  datatype Bucket = Bucket(head: Handle?, count: nat, expandMult: nat)

  // ---------------------------------------------------------------------
  // Linked sequences
  // ---------------------------------------------------------------------

  /** The element at `i`, or null outside `s`. */
  ghost function At(s: seq<Handle>, i: int): Handle? {
    if 0 <= i < |s| then s[i] else null
  }

  ghost predicate InOrder(s: seq<Handle>, i: nat)
    requires i < |s|
    reads {s[i]}`prev, {s[i]}`next
  {
    s[i].prev == At(s, i - 1) && s[i].next == At(s, i + 1)
  }

  ghost predicate InChain(s: seq<Handle>, i: nat)
    requires i < |s|
    reads {s[i]}`hhPrev, {s[i]}`hhNext
  {
    s[i].hhPrev == At(s, i - 1) && s[i].hhNext == At(s, i + 1)
  }

  ghost predicate DistinctKeys(s: seq<Handle>) {
    forall i, j :: 0 <= i < j < |s| ==> s[i].key != s[j].key
  }

  ghost function Without<T>(s: seq<T>, k: nat): seq<T>
    requires k < |s|
  {
    s[..k] + s[k + 1..]
  }

  lemma DistinctWithout(s: seq<Handle>, i: nat)
    requires DistinctKeys(s) && i < |s|
    ensures DistinctKeys(Without(s, i))
  {
  }

  // ---------------------------------------------------------------------
  // The placement of elements in buckets
  // ---------------------------------------------------------------------

  function ToBkt(hashv: nat, numBuckets: nat): nat
    requires numBuckets > 0
  {
    And(hashv, numBuckets - 1)
  }

  /** The bucket is the remainder of the hash. */
  lemma ToBktInRange(hashv: nat, k: nat)
    ensures ToBkt(hashv, Pow2(k)) == hashv % Pow2(k) < Pow2(k)
  {
    AndMask(hashv, k);
  }

  /** Every element of `order` is in the chain its hash selects, exactly once,
      and the chains hold nothing else. */
  ghost predicate Placed(hash: nat -> nat, n: nat, order: seq<Handle>, chains: seq<seq<Handle>>) {
    PlacedFacts(hash, n, order, chains) == true
  }

  ghost predicate PlacedFacts(hash: nat -> nat, n: nat, order: seq<Handle>, chains: seq<seq<Handle>>) {
    && n > 0
    && |chains| == n
    && (forall b, k :: 0 <= b < n && 0 <= k < |chains[b]| ==>
          chains[b][k] in order && ToBkt(hash(chains[b][k].key), n) == b)
    && (forall b, j, k :: 0 <= b < n && 0 <= j < k < |chains[b]| ==> chains[b][j] != chains[b][k])
    && (forall i :: 0 <= i < |order| ==>
          var b := ToBkt(hash(order[i].key), n);
          b < n && order[i] in chains[b])
  }

  class HashTable {
    /** The hash function of the key domain. */
    const hash: nat -> nat

    /** The first element, null when there is no table. */
    var head: Handle?

    // The table proper.
    var buckets: array?<Bucket>
    var numBuckets: nat
    var log2NumBuckets: nat
    var numItems: nat
    var tail: Handle?
    var idealChainMaxlen: nat
    var nonidealItems: nat
    var ineffExpands: nat
    var noexpand: bool

    /** The elements in the order in which they were added. */
    ghost var order: seq<Handle>
    /** The elements of each bucket. */
    ghost var chains: seq<seq<Handle>>

    // In the predicates below `== true` keeps a conjunction together as one
    // fact for the verifier.

    /** The elements are linked in their order. */
    ghost predicate OrderOk()
      reads this`order, this`head, this`tail, order`prev, order`next, order`hashv
    {
      OrderOkFacts() == true
    }

    ghost predicate OrderOkFacts()
      reads this`order, this`head, this`tail, order`prev, order`next, order`hashv
    {
      && DistinctKeys(order)
      && head == At(order, 0)
      && (forall i :: 0 <= i < |order| ==> InOrder(order, i))
      && (forall i :: 0 <= i < |order| ==> order[i].hashv == hash(order[i].key))
      && (order != [] ==> tail == order[|order| - 1])
    }

    /** The buckets `bs` hold exactly `elems`, linked as in `chains`. */
    ghost predicate Filled(bs: array<Bucket>, elems: seq<Handle>, chains: seq<seq<Handle>>)
      reads bs, elems`hhPrev, elems`hhNext
    {
      FilledFacts(bs, elems, chains) == true
    }

    ghost predicate FilledFacts(bs: array<Bucket>, elems: seq<Handle>, chains: seq<seq<Handle>>)
      reads bs, elems`hhPrev, elems`hhNext
    {
      && Placed(hash, bs.Length, elems, chains)
      && (forall b :: 0 <= b < bs.Length ==> bs[b].head == At(chains[b], 0) && bs[b].count == |chains[b]|)
      && (forall b, k :: 0 <= b < bs.Length && 0 <= k < |chains[b]| ==> chains[b][k] in elems)
      && (forall b, k {:trigger InChain(chains[b], k)} :: 0 <= b < bs.Length && 0 <= k < |chains[b]| ==>
            InChain(chains[b], k))
    }

    /** The table's buckets hold exactly `elems`. */
    ghost predicate BucketsOk(elems: seq<Handle>)
      reads this`buckets, this`numBuckets, this`log2NumBuckets, this`chains, buckets, elems`hhPrev, elems`hhNext
    {
      BucketsOkFacts(elems) == true
    }

    ghost predicate BucketsOkFacts(elems: seq<Handle>)
      reads this`buckets, this`numBuckets, this`log2NumBuckets, this`chains, buckets, elems`hhPrev, elems`hhNext
    {
      && buckets != null
      && buckets.Length == numBuckets == Pow2(log2NumBuckets)
      && Filled(buckets, elems, chains)
    }

    ghost predicate Valid()
      reads this, buckets, order`prev, order`next, order`hashv, order`hhPrev, order`hhNext
    {
      ValidFacts() == true
    }

    ghost predicate ValidFacts()
      reads this, buckets, order`prev, order`next, order`hashv, order`hhPrev, order`hhNext
    {
      && OrderOk()
      && (order != [] ==> numItems == |order| && BucketsOk(order))
    }

    constructor (hash: nat -> nat)
      ensures Valid() && order == [] && this.hash == hash && head == null && buckets == null
    {
      this.hash := hash;
      head, buckets, numBuckets, log2NumBuckets, numItems, tail := null, null, 0, 0, 0, null;
      idealChainMaxlen, nonidealItems, ineffExpands, noexpand := 0, 0, 0, false;
      order, chains := [], [];
    }

    // -------------------------------------------------------------------
    // Adding
    // -------------------------------------------------------------------

    /** `n` empty buckets. */
    method NewBuckets(n: nat) returns (bs: array<Bucket>, ghost chains: seq<seq<Handle>>)
      requires n > 0
      ensures fresh(bs) && bs.Length == n && Filled(bs, [], chains)
      ensures forall b :: 0 <= b < n ==> bs[b] == Bucket(null, 0, 0)
      ensures forall ideal: nat :: Excess(chains, ideal) == 0
    {
      bs := new Bucket[n](_ => Bucket(null, 0, 0));
      chains := seq(n, _ => []);
      forall ideal: nat ensures Excess(chains, ideal) == 0 {
        ExcessEmpty(chains, ideal);
      }
    }

    /** HASH_MAKE_TABLE: a table without elements. */
    method MakeTable(add: Handle)
      modifies this
      ensures head == old(head) && order == old(order)
      ensures tail == add && numItems == 0 && numBuckets == 32 && ineffExpands == 0 && !noexpand
      ensures buckets != null && fresh(buckets) && BucketsOk([])
    {
      hide Filled, Excess;
      numBuckets, log2NumBuckets := INITIAL_NUM_BUCKETS, INITIAL_NUM_BUCKETS_LOG2;
      assert Pow2(5) == 32;
      var bs; ghost var empty;
      bs, empty := NewBuckets(INITIAL_NUM_BUCKETS);
      buckets, chains := bs, empty;
      numItems, tail := 0, add;
      idealChainMaxlen, nonidealItems, ineffExpands, noexpand := 0, 0, 0, false;
    }

    /** HASH_APPEND_LIST */
    method AppendList(add: Handle)
      requires OrderOk() && order != []
      requires forall i :: 0 <= i < |order| ==> order[i].key != add.key
      requires add.hashv == hash(add.key)
      modifies this`tail, this`order, add`prev, add`next, tail`next
      ensures order == old(order) + [add] && OrderOk()
    {
      add.next := null;
      add.prev := tail;
      tail.next := add;
      tail := add;
      ghost var was := order;
      order := order + [add];
      forall i | 0 <= i < |order| ensures InOrder(order, i) {
        if i < |was| {
          assert old(InOrder(was, i));
        }
      }
    }

    /** Puts `e` at the front of bucket `b`, whose multiplier becomes `mult`. */
    method PushHead(bs: array<Bucket>, b: nat, e: Handle, mult: nat, ghost elems: seq<Handle>,
                    ghost chains: seq<seq<Handle>>)
      returns (ghost chains': seq<seq<Handle>>)
      requires Filled(bs, elems, chains) && e !in elems
      requires b < bs.Length && b == ToBkt(hash(e.key), bs.Length)
      modifies bs, e`hhPrev, e`hhNext, elems`hhPrev
      ensures Filled(bs, elems + [e], chains')
      ensures chains' == chains[b := [e] + chains[b]]
      ensures bs[b].expandMult == mult && bs[b].count == old(bs[b].count) + 1
      ensures forall d :: 0 <= d < bs.Length && d != b ==> bs[d] == old(bs[d])
    {
      var bkt := bs[b];
      e.hhPrev := null;
      e.hhNext := bkt.head;
      if bkt.head != null {
        bkt.head.hhPrev := e;
      }
      bs[b] := Bucket(e, bkt.count + 1, mult);
      chains' := chains[b := [e] + chains[b]];
      PlacedAdd(hash, bs.Length, elems, chains, e);
      forall c, k {:trigger InChain(chains'[c], k)} | 0 <= c < bs.Length && 0 <= k < |chains'[c]|
        ensures chains'[c][k] in elems + [e] && InChain(chains'[c], k)
      {
        if c != b {
          assert old(InChain(chains[c], k));
          assert bkt.head == At(chains[b], 0);
        } else if k > 0 {
          assert old(InChain(chains[b], k - 1));
        }
      }
    }

    // -------------------------------------------------------------------
    // Doubling the buckets
    // -------------------------------------------------------------------

    /** The rehashing loops stand at position `j` of chain `i` of the old
        chains: what lies before is in `done`. */
    ghost predicate Visited(olds: seq<seq<Handle>>, elems: seq<Handle>, i: nat, j: nat, done: seq<Handle>) {
      VisitedFacts(olds, elems, i, j, done) == true
    }

    ghost predicate VisitedFacts(olds: seq<seq<Handle>>, elems: seq<Handle>, i: nat, j: nat, done: seq<Handle>) {
      && Placed(hash, |olds|, elems, olds)
      && (forall e :: e in done ==> e in elems)
      && (forall b, k :: 0 <= b < |olds| && 0 <= k < |olds[b]| ==> (Passed(b, k, i, j) <==> olds[b][k] in done))
    }

    lemma VisitOne(olds: seq<seq<Handle>>, elems: seq<Handle>, i: nat, j: nat, done: seq<Handle>)
      requires Visited(olds, elems, i, j, done) && i < |olds| && j < |olds[i]|
      ensures Visited(olds, elems, i, j + 1, done + [olds[i][j]])
      ensures olds[i][j] !in done && olds[i][j] in elems
    {
      var e := olds[i][j];
      assert !Passed(i, j, i, j);
      forall b, k | 0 <= b < |olds| && 0 <= k < |olds[b]|
        ensures Passed(b, k, i, j + 1) <==> olds[b][k] in done + [e]
      {
        assert Passed(b, k, i, j + 1) <==> Passed(b, k, i, j) || (b == i && k == j);
        assert olds[b][k] == e <==> b == i && k == j;
      }
    }

    /** The rest is linked as it was. */
    ghost predicate Rehashing(olds: seq<seq<Handle>>, elems: seq<Handle>, i: nat, j: nat, done: seq<Handle>)
      reads elems
    {
      && Visited(olds, elems, i, j, done)
      && (forall e :: e in elems ==> e.hashv == hash(e.key))
      && (forall b, k {:trigger InChain(olds[b], k)} :: 0 <= b < |olds| && 0 <= k < |olds[b]| && !Passed(b, k, i, j) ==>
            InChain(olds[b], k))
    }

    /** `Rehashing` as one fact: the verifier does not take `== true` apart. */
    ghost predicate RehashingAt(olds: seq<seq<Handle>>, elems: seq<Handle>, i: nat, j: nat, done: seq<Handle>)
      reads elems
    {
      Rehashing(olds, elems, i, j, done) == true
    }

    lemma RehashBegin(elems: seq<Handle>)
      requires BucketsOk(elems)
      requires forall e :: e in elems ==> e.hashv == hash(e.key)
      ensures RehashingAt(chains, elems, 0, 0, []) && Headed(buckets, chains) && buckets.Length == Pow2(log2NumBuckets)
    {
    }

    lemma RehashNextChain(olds: seq<seq<Handle>>, elems: seq<Handle>, i: nat, done: seq<Handle>)
      requires i < |olds| && RehashingAt(olds, elems, i, |olds[i]|, done)
      ensures RehashingAt(olds, elems, i + 1, 0, done)
    {
      assert forall b, k :: 0 <= b < |olds| && 0 <= k < |olds[b]| ==>
        Passed(b, k, i + 1, 0) == Passed(b, k, i, |olds[i]|);
    }

    lemma RehashEnd(olds: seq<seq<Handle>>, elems: seq<Handle>, done: seq<Handle>)
      requires RehashingAt(olds, elems, |olds|, 0, done)
      ensures forall e :: e in done <==> e in elems
    {
      forall e | e in elems ensures e in done {
        var i :| 0 <= i < |elems| && elems[i] == e;
        var b := ToBkt(hash(e.key), |olds|);
        assert e in olds[b];
        var k :| 0 <= k < |olds[b]| && olds[b][k] == e;
        assert Passed(b, k, |olds|, 0);
      }
    }

    /** The rehashed elements `done` fill the new buckets, and the count of
        those too deep in their chain is right. */
    ghost predicate Rehashed(bs: array<Bucket>, done: seq<Handle>, chains: seq<seq<Handle>>)
      reads this`nonidealItems, this`idealChainMaxlen, bs, done
    {
      (Filled(bs, done, chains) && nonidealItems == Excess(chains, idealChainMaxlen) && Multiplied(bs)) == true
    }

    /** Each bucket's multiplier is right for its count. */
    ghost predicate Multiplied(bs: array<Bucket>)
      reads this`idealChainMaxlen, bs
    {
      forall b :: 0 <= b < bs.Length ==> bs[b].expandMult == Multiplier(bs[b].count, idealChainMaxlen)
    }

    lemma FilledAt(bs: array<Bucket>, elems: seq<Handle>, chains: seq<seq<Handle>>, b: nat)
      requires Filled(bs, elems, chains) && b < bs.Length
      ensures |chains| == bs.Length && bs[b].count == |chains[b]|
    {
    }

    /** Moves one element to its new bucket. */
    method RehashOne(bs: array<Bucket>, b: nat, e: Handle, ghost done: seq<Handle>,
                     ghost chains: seq<seq<Handle>>)
      returns (ghost chains': seq<seq<Handle>>)
      requires Rehashed(bs, done, chains) && e !in done
      requires b < bs.Length && b == ToBkt(hash(e.key), bs.Length)
      modifies bs, this`nonidealItems, e`hhPrev, e`hhNext, done`hhPrev
      ensures Rehashed(bs, done + [e], chains')
    {
      hide Multiplier, Excess, Filled, ToBkt;
      var count, mult := bs[b].count + 1, bs[b].expandMult;
      if count > idealChainMaxlen {
        nonidealItems := nonidealItems + 1;
        if count > mult * idealChainMaxlen {
          mult := mult + 1;
        }
      }
      FilledAt(bs, done, chains, b);
      MultiplierNext(bs[b].count, idealChainMaxlen);
      chains' := PushHead(bs, b, e, mult, done, chains);
      ExcessUpdate(chains, b, chains'[b], idealChainMaxlen);
    }

    /** One round of the inner loop, at `j` of chain `i`. */
    method RehashNext(bs: array<Bucket>, thh: Handle, k: nat,
                      ghost olds: seq<seq<Handle>>, ghost elems: seq<Handle>, ghost i: nat, ghost j: nat,
                      ghost done: seq<Handle>, ghost chains: seq<seq<Handle>>)
      returns (nxt: Handle?, ghost chains': seq<seq<Handle>>)
      requires i < |olds| && j < |olds[i]| && thh == olds[i][j]
      requires bs.Length == Pow2(k)
      requires Rehashed(bs, done, chains) && RehashingAt(olds, elems, i, j, done)
      modifies bs, this`nonidealItems, elems`hhPrev, elems`hhNext
      ensures nxt == At(olds[i], j + 1)
      ensures Rehashed(bs, done + [thh], chains') && RehashingAt(olds, elems, i, j + 1, done + [thh])
    {
      hide ToBkt;
      VisitOne(olds, elems, i, j, done);
      assert InChain(olds[i], j);
      nxt := thh.hhNext;
      ToBktInRange(thh.hashv, k);
      chains' := RehashOne(bs, ToBkt(thh.hashv, bs.Length), thh, done, chains);
      forall b, m {:trigger InChain(olds[b], m)} |
        0 <= b < |olds| && 0 <= m < |olds[b]| && !Passed(b, m, i, j + 1)
        ensures InChain(olds[b], m)
      {
        assert old(InChain(olds[b], m));
        assert olds[b][m] !in done + [thh];
      }
    }

    /** The inner loop of HASH_EXPAND_BUCKETS: rehashes the chain `i` that
        starts at `first`. */
    method RehashChain(bs: array<Bucket>, first: Handle?, k: nat,
                       ghost olds: seq<seq<Handle>>, ghost elems: seq<Handle>, ghost i: nat,
                       ghost done: seq<Handle>, ghost chains: seq<seq<Handle>>)
      returns (ghost done': seq<Handle>, ghost chains': seq<seq<Handle>>)
      requires i < |olds| && first == At(olds[i], 0)
      requires bs.Length == Pow2(k)
      requires Rehashed(bs, done, chains) && RehashingAt(olds, elems, i, 0, done)
      modifies bs, this`nonidealItems, elems`hhPrev, elems`hhNext
      ensures Rehashed(bs, done', chains') && RehashingAt(olds, elems, i + 1, 0, done')
    {
      done', chains' := done, chains;
      var thh := first;
      ghost var j := 0;
      while thh != null
        invariant j <= |olds[i]| && thh == At(olds[i], j)
        invariant Rehashed(bs, done', chains')
        invariant RehashingAt(olds, elems, i, j, done')
        decreases |olds[i]| - j
      {
        var nxt;
        nxt, chains' := RehashNext(bs, thh, k, olds, elems, i, j, done', chains');
        done' := done' + [thh];
        thh, j := nxt, j + 1;
      }
      RehashNextChain(olds, elems, i, done');
    }

    lemma SameFilled(bs: array<Bucket>, a: seq<Handle>, b: seq<Handle>, chains: seq<seq<Handle>>)
      requires Filled(bs, a, chains)
      requires forall e :: e in a <==> e in b
      ensures Filled(bs, b, chains)
    {
      SameElements(hash, bs.Length, a, b, chains);
    }

    /** The chains start where the buckets say. */
    ghost predicate Headed(bs: array<Bucket>, chains: seq<seq<Handle>>)
      reads bs
    {
      bs.Length == |chains| && forall b :: 0 <= b < |chains| ==> bs[b].head == At(chains[b], 0)
    }

    /** The outer loop of HASH_EXPAND_BUCKETS. */
    method RehashAll(from: array<Bucket>, bs: array<Bucket>, k: nat,
                     ghost olds: seq<seq<Handle>>, ghost elems: seq<Handle>,
                     ghost empty: seq<seq<Handle>>)
      returns (ghost newChains: seq<seq<Handle>>)
      requires Headed(from, olds) && RehashingAt(olds, elems, 0, 0, [])
      requires bs != from && bs.Length == Pow2(k)
      requires Filled(bs, [], empty) && Excess(empty, idealChainMaxlen) == 0 && Multiplied(bs)
      modifies this`nonidealItems, bs, elems`hhPrev, elems`hhNext
      ensures Rehashed(bs, elems, newChains) && nonidealItems == Excess(newChains, idealChainMaxlen)
      ensures Multiplied(bs)
    {
      newChains := empty;
      ghost var done: seq<Handle> := [];
      nonidealItems := 0;
      for i := 0 to from.Length
        invariant Rehashed(bs, done, newChains)
        invariant RehashingAt(olds, elems, i, 0, done)
      {
        done, newChains := RehashChain(bs, from[i].head, k, olds, elems, i, done, newChains);
      }
      RehashEnd(olds, elems, done);
      SameFilled(bs, done, elems, newChains);
    }

    /** HASH_EXPAND_BUCKETS */
    method ExpandBuckets(ghost elems: seq<Handle>)
      requires BucketsOk(elems)
      requires forall e :: e in elems ==> e.hashv == hash(e.key)
      modifies this`buckets, this`numBuckets, this`log2NumBuckets, this`idealChainMaxlen, this`nonidealItems,
               this`ineffExpands, this`noexpand, this`chains, elems`hhPrev, elems`hhNext
      ensures BucketsOk(elems)
      ensures fresh(buckets) && numBuckets == 2 * old(numBuckets)
      ensures idealChainMaxlen == IdealLength(numItems, log2NumBuckets, numBuckets)
      ensures nonidealItems == Excess(chains, idealChainMaxlen) && Multiplied(buckets)
      ensures ineffExpands == if nonidealItems > numItems / 2 then old(ineffExpands) + 1 else 0
      ensures noexpand == (old(noexpand) || ineffExpands > 1)
    {
      hide IdealLength, Filled;
      RehashBegin(elems);
      var from, n, k := buckets, 2 * numBuckets, log2NumBuckets + 1;
      idealChainMaxlen := IdealLength(numItems, k, n);
      var newBuckets; ghost var newChains;
      newBuckets, newChains := NewBuckets(n);
      newChains := RehashAll(from, newBuckets, k, chains, elems, newChains);
      InstallBuckets(newBuckets, n, k, newChains, elems);
    }

    /** The end of HASH_EXPAND_BUCKETS. */
    method InstallBuckets(bs: array<Bucket>, n: nat, k: nat, ghost newChains: seq<seq<Handle>>,
                          ghost elems: seq<Handle>)
      requires Rehashed(bs, elems, newChains) && bs.Length == n == Pow2(k)
      modifies this`buckets, this`numBuckets, this`log2NumBuckets, this`ineffExpands, this`noexpand, this`chains
      ensures buckets == bs && numBuckets == n && log2NumBuckets == k && chains == newChains
      ensures BucketsOk(elems)
      ensures ineffExpands == if nonidealItems > numItems / 2 then old(ineffExpands) + 1 else 0
      ensures noexpand == (old(noexpand) || ineffExpands > 1)
    {
      hide Filled, Excess;
      numBuckets, log2NumBuckets, buckets, chains := n, k, bs, newChains;
      ineffExpands := if nonidealItems > numItems / 2 then ineffExpands + 1 else 0;
      if ineffExpands > 1 {
        noexpand := true;
      }
    }

    /** HASH_ADD_KEYPTR_BYHASHVALUE to an empty table, up to the bucket. */
    method AddFirst(add: Handle)
      requires head == null && add.hashv == hash(add.key)
      modifies this, add`prev, add`next
      ensures order == [add] && OrderOk() && numItems == 0 && numBuckets == 32 && !noexpand
      ensures buckets != null && fresh(buckets) && BucketsOk([])
    {
      add.next, add.prev := null, null;
      MakeTable(add);
      hide Filled;
      head := add;
      order := [add];
      assert InOrder(order, 0);
    }

    /** HASH_ADD_KEYPTR_BYHASHVALUE of an element whose key is not in the table. */
    method Add(add: Handle)
      requires Valid() && add !in order
      requires forall i :: 0 <= i < |order| ==> order[i].key != add.key
      modifies this, buckets, order`next, order`hhPrev, order`hhNext
      modifies add`hashv, add`prev, add`next, add`hhPrev, add`hhNext
      ensures Valid() && order == old(order) + [add]
      ensures buckets == old(buckets) || fresh(buckets)
    {
      hide BucketsOk, OrderOk;
      ghost var was := order;
      add.hashv := hash(add.key);
      Enlist(add);
      numItems := numItems + 1;
      OrderHashed();
      AddToBkt(add, was, order);
    }

    lemma ValidMeans()
      requires Valid()
      ensures OrderOk() && (head == null <==> order == [])
      ensures order != [] ==> numItems == |order| && BucketsOk(order) && buckets != null
      ensures order != [] ==> order[|order| - 1] == tail
    {
      hide Filled;
    }

    /** The element becomes the last of the order; the buckets are as before. */
    method Enlist(add: Handle)
      requires Valid() && add !in order && add.hashv == hash(add.key)
      requires forall i :: 0 <= i < |order| ==> order[i].key != add.key
      modifies this, order`next, add`prev, add`next
      ensures OrderOk() && order == old(order) + [add] && numItems == |old(order)|
      ensures buckets != null && BucketsOk(old(order))
      ensures buckets == old(buckets) || fresh(buckets)
    {
      ValidMeans();
      hide *;
      if head == null {
        AddFirst(add);
      } else {
        AppendList(add);
      }
    }

    lemma OrderHashed()
      requires OrderOk()
      ensures forall e :: e in order ==> e.hashv == hash(e.key)
    {
    }

    /** HASH_ADD_TO_BKT */
    method AddToBkt(add: Handle, ghost was: seq<Handle>, ghost now: seq<Handle>)
      requires now == was + [add] && BucketsOk(was) && add !in was
      requires forall e :: e in now ==> e.hashv == hash(e.key)
      modifies this`buckets, this`numBuckets, this`log2NumBuckets, this`idealChainMaxlen, this`nonidealItems,
               this`ineffExpands, this`noexpand, this`chains, buckets, now`hhPrev, now`hhNext
      ensures BucketsOk(now)
      ensures buckets == old(buckets) || fresh(buckets)
      ensures var b := ToBkt(hash(add.key), old(numBuckets));
              && b < old(buckets.Length)
              && if old(buckets[b].count) + 1 >= 10 * (old(buckets[b].expandMult) + 1) && !old(noexpand)
                 then numBuckets == 2 * old(numBuckets)
                 else
                   && buckets == old(buckets) && numBuckets == old(numBuckets) && noexpand == old(noexpand)
                   && (forall d :: 0 <= d < numBuckets ==> buckets[d].expandMult == old(buckets[d].expandMult))
                   && chains == old(chains)[b := [add] + old(chains)[b]]
    {
      hide Placed;
      ToBktInRange(add.hashv, log2NumBuckets);
      var b := ToBkt(add.hashv, numBuckets);
      hide ToBkt;
      assert now[|was|] == add && forall i :: 0 <= i < |was| ==> now[i] == was[i];
      var mult := buckets[b].expandMult;
      ghost var chains' := PushHead(buckets, b, add, mult, was, chains);
      chains := chains';
      if buckets[b].count >= (mult + 1) * BKT_CAPACITY_THRESH && !noexpand {
        ExpandBuckets(now);
      }
    }

    // -------------------------------------------------------------------
    // Finding
    // -------------------------------------------------------------------

    /** HASH_FIND: the element with key `key`, null if there is none. */
    method Find(key: nat) returns (out: Handle?)
      requires Valid()
      ensures out != null ==> out in order && out.key == key
      ensures out == null ==> forall i :: 0 <= i < |order| ==> order[i].key != key
    {
      out := null;
      if head != null {
        var hashv := hash(key);
        ToBktInRange(hashv, log2NumBuckets);
        var b := ToBkt(hashv, numBuckets);
        out := FindInBkt(b, key, hashv);
      }
    }

    /** HASH_FIND_IN_BKT */
    method FindInBkt(b: nat, key: nat, hashv: nat) returns (out: Handle?)
      requires Valid() && head != null
      requires hashv == hash(key) && b == ToBkt(hashv, numBuckets) && b < numBuckets
      ensures out != null ==> out in order && out.key == key
      ensures out == null ==> forall i :: 0 <= i < |order| ==> order[i].key != key
    {
      hide ToBkt;
      ghost var c, k := chains[b], 0;
      out := buckets[b].head;
      while out != null
        invariant k <= |c| && out == At(c, k)
        invariant forall m :: 0 <= m < k ==> c[m].key != key
        decreases |c| - k
      {
        assert InChain(chains[b], k);
        assert out in order;
        if out.hashv == hashv && out.key == key {
          return;
        }
        out, k := out.hhNext, k + 1;
      }
      assert k == |c|;
      forall i | 0 <= i < |order| ensures order[i].key != key {
        assert order[i] in chains[ToBkt(hash(order[i].key), numBuckets)];
      }
    }

    // -------------------------------------------------------------------
    // Deleting
    // -------------------------------------------------------------------

    /** HASH_DELETE of the element at `i` of the order. */
    method Delete(del: Handle, ghost i: nat)
      requires Valid() && i < |order| && del == order[i]
      modifies this, buckets, order`prev, order`next, order`hhPrev, order`hhNext
      ensures Valid() && order == Without(old(order), i)
      ensures if |old(order)| == 1 then head == null && buckets == null else head != null && buckets == old(buckets)
    {
      ValidMeans();
      Alone(i);
      OrderHashed();
      hide *;
      if del.prev == null && del.next == null {
        Drop();
      } else {
        DeleteFrom(del, i);
        Shrunk();
      }
    }

    /** One of several elements goes. */
    method DeleteFrom(del: Handle, ghost i: nat)
      requires OrderOk() && BucketsOk(order) && numItems == |order|
      requires DistinctKeys(order) && |order| > 1
      requires i < |order| && del == order[i] && del.hashv == hash(del.key)
      modifies this`head, this`tail, this`order, this`chains, this`numItems
      modifies buckets, order`prev, order`next, order`hhPrev, order`hhNext
      ensures OrderOk() && order == Without(old(order), i)
      ensures BucketsOk(order) && numItems == |old(order)| - 1
    {
      hide *;
      ghost var was := order;
      UnlinkOrder(del, i);
      DelInBkt(del, was, i);
      numItems := numItems - 1;
    }

    /** An element without neighbours is the only one. */
    lemma Alone(i: nat)
      requires OrderOk() && i < |order|
      ensures DistinctKeys(order)
      ensures order[i].prev == null && order[i].next == null <==> |order| == 1
      ensures |Without(order, i)| == |order| - 1
    {
      assert InOrder(order, i);
    }

    /** The table goes with its last element. */
    method Drop()
      modifies this`head, this`buckets, this`order, this`chains
      ensures Valid() && order == [] && head == null && buckets == null
    {
      head, buckets := null, null;
      order, chains := [], [];
    }

    lemma Shrunk()
      requires OrderOk() && numItems == |order| && BucketsOk(order)
      ensures Valid() && (order != [] ==> head != null)
    {
      hide Filled;
    }

    /** The application-order part of HASH_DELETE_HH. */
    method UnlinkOrder(del: Handle, ghost i: nat)
      requires OrderOk() && i < |order| && del == order[i] && |order| > 1
      modifies this`head, this`tail, this`order, order`prev, order`next
      ensures OrderOk() && order == Without(old(order), i)
    {
      ghost var was := order;
      OrderMeans(i);
      hide HashTable.OrderOk, Without, InOrder, DistinctKeys;
      if del == tail {
        tail := del.prev;
      }
      if del.prev == null {
        head := del.next;
      }
      Bypass(del, was, i);
      order := Without(was, i);
      OrderIs();
    }

    /** What the element at `i` of the order is linked to. */
    lemma OrderMeans(i: nat)
      requires OrderOk() && i < |order| && |order| > 1
      ensures DistinctKeys(order) && DistinctKeys(Without(order, i))
      ensures forall j :: 0 <= j < |order| ==> InOrder(order, j)
      ensures forall j :: 0 <= j < |Without(order, i)| ==>
                Without(order, i)[j].hashv == hash(Without(order, i)[j].key)
      ensures order[i] == tail <==> i == |order| - 1
      ensures order[i].prev == null <==> i == 0
      ensures At(Without(order, i), 0) == if i == 0 then order[i].next else head
      ensures At(Without(order, i), |order| - 2) == if i == |order| - 1 then order[i].prev else tail
      ensures |Without(order, i)| == |order| - 1
    {
      assert InOrder(order, i);
      DistinctWithout(order, i);
    }

    lemma OrderIs()
      requires DistinctKeys(order) && order != []
      requires head == At(order, 0) && tail == At(order, |order| - 1)
      requires forall i :: 0 <= i < |order| ==> InOrder(order, i)
      requires forall i :: 0 <= i < |order| ==> order[i].hashv == hash(order[i].key)
      ensures OrderOk()
    {
    }

    /** The neighbours of an element are linked to each other. */
    method Bypass(del: Handle, ghost s: seq<Handle>, ghost i: nat)
      requires DistinctKeys(s) && i < |s| && del == s[i]
      requires forall j :: 0 <= j < |s| ==> InOrder(s, j)
      modifies s`prev, s`next
      ensures forall j :: 0 <= j < |Without(s, i)| ==> InOrder(Without(s, i), j)
    {
      assert InOrder(s, i);
      if del.prev != null {
        del.prev.next := del.next;
      }
      if del.next != null {
        del.next.prev := del.prev;
      }
      ghost var t := Without(s, i);
      forall j | 0 <= j < |t| ensures InOrder(t, j) {
        if j < i {
          assert old(InOrder(s, j));
        } else {
          assert old(InOrder(s, j + 1));
        }
      }
    }

    /** Bucket `b` holds exactly the chain `c`. */
    ghost predicate Holds(bs: array<Bucket>, b: nat, c: seq<Handle>)
      requires b < bs.Length
      reads bs, c`hhPrev, c`hhNext
    {
      HoldsFacts(bs, b, c) == true
    }

    ghost predicate HoldsFacts(bs: array<Bucket>, b: nat, c: seq<Handle>)
      requires b < bs.Length
      reads bs, c`hhPrev, c`hhNext
    {
      && bs[b].head == At(c, 0)
      && bs[b].count == |c|
      && (forall m :: 0 <= m < |c| ==> InChain(c, m))
    }

    /** HASH_DEL_IN_BKT */
    method UnlinkChain(bs: array<Bucket>, b: nat, del: Handle, ghost c: seq<Handle>, ghost k: nat)
      requires b < bs.Length && Holds(bs, b, c)
      requires forall i, j :: 0 <= i < j < |c| ==> c[i] != c[j]
      requires k < |c| && del == c[k]
      modifies bs, c`hhPrev, c`hhNext
      ensures Holds(bs, b, Without(c, k))
      ensures forall d :: 0 <= d < bs.Length && d != b ==> bs[d] == old(bs[d])
      ensures bs[b].expandMult == old(bs[b].expandMult)
    {
      assert InChain(c, k);
      bs[b] := bs[b].(count := bs[b].count - 1);
      if bs[b].head == del {
        bs[b] := bs[b].(head := del.hhNext);
      }
      if del.hhPrev != null {
        del.hhPrev.hhNext := del.hhNext;
      }
      if del.hhNext != null {
        del.hhNext.hhPrev := del.hhPrev;
      }
      ghost var c' := Without(c, k);
      forall m | 0 <= m < |c'| ensures InChain(c', m) {
        if m < k {
          assert old(InChain(c, m));
        } else {
          assert old(InChain(c, m + 1));
        }
      }
    }

    /** The element leaves its own chain; every other chain, and the order in
        this one, is as it was. */
    method DelInBkt(del: Handle, ghost was: seq<Handle>, ghost i: nat)
      requires BucketsOk(was) && DistinctKeys(was) && i < |was| && del == was[i]
      requires del.hashv == hash(del.key)
      modifies this`chains, buckets, was`hhPrev, was`hhNext
      ensures BucketsOk(Without(was, i))
      ensures exists k: nat :: TakenOut(old(chains), ToBkt(hash(del.key), numBuckets), k, del, chains)
      ensures buckets != null
      ensures forall d :: 0 <= d < buckets.Length ==> buckets[d].expandMult == old(buckets[d].expandMult)
    {
      hide ToBkt, Placed, DistinctKeys;
      var b := ToBkt(del.hashv, numBuckets);
      ghost var olds := chains;
      ChainOf(hash, numBuckets, was, olds, i);
      ghost var k: nat :| k < |olds[b]| && olds[b][k] == del;
      PlacedRemove(hash, numBuckets, was, olds, i, k);
      ChainsDisjoint(hash, numBuckets, was, olds, b);
      UnlinkChain(buckets, b, del, olds[b], k);
      chains := olds[b := Without(olds[b], k)];
      assert TakenOut(olds, b, k, del, chains);
      forall d, m {:trigger InChain(chains[d], m)} | 0 <= d < numBuckets && 0 <= m < |chains[d]|
        ensures InChain(chains[d], m)
      {
        if d != b {
          assert old(InChain(olds[d], m));
        }
      }
    }
  }

  /** `now` are the chains `was` without `e`, which was at `k` of chain `b`. */
  ghost predicate TakenOut(was: seq<seq<Handle>>, b: nat, k: nat, e: Handle, now: seq<seq<Handle>>) {
    && b < |was| && k < |was[b]| && was[b][k] == e
    && now == was[b := Without(was[b], k)]
  }

  /** The chain of an element. */
  lemma ChainOf(hash: nat -> nat, n: nat, order: seq<Handle>, chains: seq<seq<Handle>>, i: nat)
    requires Placed(hash, n, order, chains) && i < |order|
    ensures var b := ToBkt(hash(order[i].key), n);
            && b < n == |chains| && order[i] in chains[b]
            && forall j, k :: 0 <= j < k < |chains[b]| ==> chains[b][j] != chains[b][k]
  {
  }

  lemma ChainsDisjoint(hash: nat -> nat, n: nat, order: seq<Handle>, chains: seq<seq<Handle>>, b: nat)
    requires Placed(hash, n, order, chains) && b < n
    ensures forall d, m :: 0 <= d < n && d != b && 0 <= m < |chains[d]| ==> chains[d][m] !in chains[b]
  {
    hide ToBkt;
  }

  lemma WithoutElements<T>(s: seq<T>, k: nat)
    requires k < |s|
    requires forall i, j :: 0 <= i < j < |s| ==> s[i] != s[j]
    ensures forall e :: e in Without(s, k) <==> e in s && e != s[k]
  {
    var s' := Without(s, k);
    forall e | e in s && e != s[k] ensures e in s' {
      var j :| 0 <= j < |s| && s[j] == e;
      assert s'[if j < k then j else j - 1] == e;
    }
    forall j | 0 <= j < |s'| ensures s'[j] in s && s'[j] != s[k] {
      assert s'[j] == s[if j < k then j else j + 1];
    }
  }

  /** Removing an element from the order and from its chain. */
  lemma PlacedRemove(hash: nat -> nat, n: nat, order: seq<Handle>, chains: seq<seq<Handle>>, i: nat, k: nat)
    requires Placed(hash, n, order, chains) && DistinctKeys(order) && i < |order|
    requires var b := ToBkt(hash(order[i].key), n); k < |chains[b]| && chains[b][k] == order[i]
    ensures var b := ToBkt(hash(order[i].key), n);
            Placed(hash, n, Without(order, i), chains[b := Without(chains[b], k)])
  {
    hide ToBkt;
    var del, order' := order[i], Without(order, i);
    var b := ToBkt(hash(del.key), n);
    var chains': seq<seq<Handle>> := chains[b := Without(chains[b], k)];
    WithoutElements(order, i);
    WithoutElements(chains[b], k);
    ChainsDisjoint(hash, n, order, chains, b);
    PlacedMembers(hash, n, order, chains);
    assert del in chains[b];
    forall d: nat, m: nat | d < n && m < |chains'[d]|
      ensures chains'[d][m] in order' && ToBkt(hash(chains'[d][m].key), n) == d
    {
      assert chains'[d][m] in chains[d];
    }
    forall j | 0 <= j < |order'| ensures var c := ToBkt(hash(order'[j].key), n); c < n && order'[j] in chains'[c] {
      assert order'[j] in order && order'[j] != del;
    }
  }

  lemma PlacedMembers(hash: nat -> nat, n: nat, order: seq<Handle>, chains: seq<seq<Handle>>)
    requires Placed(hash, n, order, chains)
    ensures forall d, e :: 0 <= d < n && e in chains[d] ==> e in order && ToBkt(hash(e.key), n) == d
    ensures forall e :: e in order ==> ToBkt(hash(e.key), n) < n && e in chains[ToBkt(hash(e.key), n)]
  {
    hide ToBkt;
  }

  /** Position `k` of chain `b` lies before position `j` of chain `i`. */
  ghost predicate Passed(b: nat, k: nat, i: nat, j: nat) {
    b < i || (b == i && k < j)
  }

  /** The length of the longest chain in an ideal table of `n` buckets, `k` the
      binary logarithm of `n`. */
  function IdealLength(items: nat, k: nat, n: nat): nat
    requires n > 0
  {
    Shr(items, k) + if And(items, n - 1) != 0 then 1 else 0
  }

  /** The multiplier of a bucket with `count` elements that were put into it one
      by one. */
  function Multiplier(count: nat, ideal: nat): nat {
    if count == 0 then 0
    else
      var m := Multiplier(count - 1, ideal);
      if count > ideal && count > m * ideal then m + 1 else m
  }

  lemma MultiplierNext(count: nat, ideal: nat)
    ensures var m := Multiplier(count, ideal);
            Multiplier(count + 1, ideal) == if count + 1 > ideal && count + 1 > m * ideal then m + 1 else m
  {
  }

  /** It is 0 up to the ideal length, and beyond it the number of ideal lengths
      that the elements take, rounded up, but no more than the elements beyond
      the first ideal length. */
  lemma {:induction false} MultiplierIs(count: nat, ideal: nat)
    requires ideal > 0
    ensures var m, up := Multiplier(count, ideal), (count + ideal - 1) / ideal;
            m == if count <= ideal then 0 else if count - ideal <= up then count - ideal else up
  {
    MultiplierBounds(count, ideal);
    hide Multiplier;
    if count > ideal {
      var m, up := Multiplier(count, ideal), (count + ideal - 1) / ideal;
      UpIs(count, ideal, up);
      if m < up {
        MulMonotone(ideal, m, up - 1);
      } else if m > up {
        MulMonotone(ideal, up, m - 1);
        TimesNext(ideal, m - 1);
      }
    }
  }

  lemma UpIs(count: nat, ideal: nat, up: nat)
    requires ideal > 0 && up == (count + ideal - 1) / ideal
    ensures ideal * up >= count && (up > 0 ==> ideal * (up - 1) < count)
  {
    var r := (count + ideal - 1) % ideal;
    assert count + ideal - 1 == ideal * up + r;
    if up > 0 {
      assert ideal * (up - 1) == ideal * up - ideal;
    }
  }

  /** What is true of the multiplier `m` of `count` elements; `p` is `ideal * m`. */
  predicate MultiplierOk(count: nat, ideal: nat, m: nat, p: int) {
    if count <= ideal then m == 0 && p == 0
    else 0 < m <= count - ideal && (m == count - ideal || count <= p) && p - ideal < count
  }

  lemma {:induction false} MultiplierBounds(count: nat, ideal: nat)
    requires ideal > 0
    ensures MultiplierOk(count, ideal, Multiplier(count, ideal), ideal * Multiplier(count, ideal))
  {
    if count > 0 {
      var m := Multiplier(count - 1, ideal);
      MultiplierBounds(count - 1, ideal);
      MultiplierNext(count - 1, ideal);
      hide Multiplier, MultiplierOk;
      TimesNext(ideal, m);
      MultiplierStep(count - 1, ideal, m, ideal * m);
    }
  }

  lemma TimesNext(x: nat, y: nat)
    ensures x * y == y * x && x * (y + 1) == x * y + x
  {
  }

  lemma MultiplierStep(count: nat, ideal: nat, m: nat, p: int)
    requires ideal > 0 && MultiplierOk(count, ideal, m, p)
    ensures if count + 1 > ideal && count + 1 > p then MultiplierOk(count + 1, ideal, m + 1, p + ideal)
            else MultiplierOk(count + 1, ideal, m, p)
  {
  }

  /** How far the chains exceed the ideal length, in all. */
  function Excess<T>(chains: seq<seq<T>>, ideal: nat): nat {
    if chains == [] then 0
    else
      var n := |chains| - 1;
      Excess(chains[..n], ideal) + if |chains[n]| > ideal then |chains[n]| - ideal else 0
  }

  /** The positions in the chains behind the ideal length. */
  ghost function Beyond<T>(chains: seq<seq<T>>, ideal: nat): set<(nat, nat)> {
    set b: nat, k: nat | b < |chains| && ideal <= k < |chains[b]| :: (b, k)
  }

  /** That is how many elements lie behind the ideal length. */
  lemma {:induction false} ExcessIs<T>(chains: seq<seq<T>>, ideal: nat)
    ensures Excess(chains, ideal) == |Beyond(chains, ideal)|
  {
    if chains == [] {
      assert Beyond(chains, ideal) == {};
    } else {
      var n := |chains| - 1;
      var last := Row(n, ideal, |chains[n]|);
      ExcessIs(chains[..n], ideal);
      assert Beyond(chains, ideal) == Beyond(chains[..n], ideal) + last;
      assert Beyond(chains[..n], ideal) !! last;
      PairsSize(n, ideal, |chains[n]|);
    }
  }

  ghost function Row(n: nat, lo: nat, hi: nat): set<(nat, nat)> {
    set k: nat | lo <= k < hi :: (n, k)
  }

  lemma {:induction false} PairsSize(n: nat, lo: nat, hi: nat)
    ensures |Row(n, lo, hi)| == if lo < hi then hi - lo else 0
    decreases hi
  {
    var all := Row(n, lo, hi);
    if lo < hi {
      PairsSize(n, lo, hi - 1);
      assert all == Row(n, lo, hi - 1) + {(n, hi - 1)};
    } else {
      assert all == {};
    }
  }

  lemma {:induction false} ExcessEmpty<T>(chains: seq<seq<T>>, ideal: nat)
    requires forall b :: 0 <= b < |chains| ==> chains[b] == []
    ensures Excess(chains, ideal) == 0
  {
    if chains != [] {
      ExcessEmpty(chains[..|chains| - 1], ideal);
    }
  }

  lemma {:induction false} ExcessUpdate<T>(chains: seq<seq<T>>, b: nat, c: seq<T>, ideal: nat)
    requires b < |chains| && |c| == |chains[b]| + 1
    ensures Excess(chains[b := c], ideal) == Excess(chains, ideal) + if |c| > ideal then 1 else 0
  {
    var n := |chains| - 1;
    if b < n {
      ExcessUpdate(chains[..n], b, c, ideal);
      assert chains[b := c][..n] == chains[..n][b := c];
    } else {
      assert chains[b := c][..n] == chains[..n];
    }
  }

  /** The shift and mask round the quotient up. */
  lemma IdealIsCeiling(items: nat, k: nat)
    ensures IdealLength(items, k, Pow2(k)) == (items + Pow2(k) - 1) / Pow2(k)
  {
    AndMask(items, k);
    ShrDiv(items, k);
    hide And, Shr;
    CeilDiv(items, Pow2(k), items / Pow2(k), items % Pow2(k));
  }

  lemma CeilDiv(a: nat, d: nat, q: nat, r: nat)
    requires r < d && a == d * q + r
    ensures (a + d - 1) / d == q + if r != 0 then 1 else 0
  {
    if r == 0 {
      DivModUnique(a + d - 1, d, q, d - 1);
    } else {
      assert d * (q + 1) == d * q + d;
      DivModUnique(a + d - 1, d, q + 1, r - 1);
    }
  }

  lemma SameElements(hash: nat -> nat, n: nat, a: seq<Handle>, b: seq<Handle>,
                        chains: seq<seq<Handle>>)
    requires Placed(hash, n, a, chains)
    requires forall e :: e in a <==> e in b
    ensures Placed(hash, n, b, chains)
  {
    forall i | 0 <= i < |b| ensures ToBkt(hash(b[i].key), n) < n && b[i] in chains[ToBkt(hash(b[i].key), n)] {
      assert b[i] in a;
      var j :| 0 <= j < |a| && a[j] == b[i];
    }
  }

  lemma PlacedAdd(hash: nat -> nat, n: nat, order: seq<Handle>, chains: seq<seq<Handle>>, add: Handle)
    requires Placed(hash, n, order, chains) && add !in order
    requires ToBkt(hash(add.key), n) < n
    ensures var b := ToBkt(hash(add.key), n);
            Placed(hash, n, order + [add], chains[b := [add] + chains[b]])
  {
    var b := ToBkt(hash(add.key), n);
    var chains' := chains[b := [add] + chains[b]];
    assert add in chains'[b];
    forall i | 0 <= i < |order| ensures order[i] in chains'[ToBkt(hash(order[i].key), n)] {
      assert order[i] in chains[ToBkt(hash(order[i].key), n)];
    }
  }
}
