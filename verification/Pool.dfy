/** The chunk pool of pool.h: equal chunks carved from one region. Free chunks
    form a list threaded through their own memory; the wilderness, above all
    chunks handed out so far, shrinks when its lowest neighbour is freed. */
module Pools {

  /** The size of `struct pool` before its data. */
  const HEADER: nat := 24
  /** A free chunk holds a pointer. */
  const LINK_SIZE: nat := 8

  class Pool {
    const base: nat
    const len: nat
    const chunkSz: nat
    var wilderness: nat
    /** The address of the first free chunk, 0 if there is none. */
    var free: nat
    /** The pointers stored in memory, by address. */
    var mem: map<nat, nat>

    /** How many chunks lie below the wilderness. */
    ghost var slots: nat
    /** The free ones, in list order, and the live ones. */
    ghost var freeList: seq<nat>
    ghost var live: set<nat>

    ghost predicate Valid()
      reads this
    {
      ValidFacts() == true
    }

    ghost predicate ValidFacts()
      reads this
    {
      && base > 0 && chunkSz >= LINK_SIZE
      && wilderness == Addr(slots)
      && (slots > 0 ==> wilderness <= base + len)
      && free == Head(freeList)
      && (forall i :: 0 <= i < |freeList| ==> LinkAt(mem, freeList, i))
      && Partition(freeList, live, Chunks(slots))
    }

    /** `chunks` are the free and the live ones, each once. */
    static ghost predicate Partition(freeList: seq<nat>, live: set<nat>, chunks: set<nat>) {
      PartitionFacts(freeList, live, chunks) == true
    }

    static ghost predicate PartitionFacts(freeList: seq<nat>, live: set<nat>, chunks: set<nat>) {
      && (forall i, j :: 0 <= i < j < |freeList| ==> freeList[i] != freeList[j])
      && Elements(freeList) !! live
      && Elements(freeList) + live == chunks
    }

    static ghost function Elements(s: seq<nat>): set<nat> {
      set a | a in s
    }

    function Addr(k: nat): nat {
      if k == 0 then base + HEADER else Addr(k - 1) + chunkSz
    }

    /** The addresses of the first `n` chunks. */
    ghost function Chunks(n: nat): set<nat> {
      if n == 0 then {} else Chunks(n - 1) + {Addr(n - 1)}
    }

    static ghost function Head(s: seq<nat>): nat {
      if s == [] then 0 else s[0]
    }

    /** The `i`-th chunk of the free list `s` points to the next. */
    static ghost predicate LinkAt(mem: map<nat, nat>, s: seq<nat>, i: nat)
      requires i < |s|
    {
      s[i] in mem && mem[s[i]] == Head(s[i + 1..])
    }

    /** How many chunks fit into the region. */
    function Capacity(): nat
      requires chunkSz > 0
    {
      if len < HEADER then 0 else (len - HEADER) / chunkSz
    }

    lemma {:induction false} ChunksBelow(n: nat)
      requires chunkSz > 0
      ensures forall a :: a in Chunks(n) ==> base + HEADER <= a && a + chunkSz <= Addr(n)
      ensures |Chunks(n)| == n && base + HEADER <= Addr(n)
    {
      if n > 0 {
        ChunksBelow(n - 1);
      }
    }

    /** Chunks of the size at these addresses do not overlap. */
    static ghost predicate Apart(chunks: set<nat>, size: nat) {
      ApartFacts(chunks, size) == true
    }

    static ghost predicate ApartFacts(chunks: set<nat>, size: nat) {
      forall a, b :: a in chunks && b in chunks && a < b ==> a + size <= b
    }

    static lemma ApartGrow(chunks: set<nat>, size: nat, top: nat)
      requires Apart(chunks, size) && forall a :: a in chunks ==> a + size <= top
      ensures Apart(chunks + {top}, size)
    {
    }

    lemma {:induction false} ChunksApart(n: nat)
      requires chunkSz > 0
      ensures Apart(Chunks(n), chunkSz)
    {
      hide Pool.Apart;
      ChunksBelow(n);
      if n > 0 {
        ChunksBelow(n - 1);
        ChunksApart(n - 1);
        ApartGrow(Chunks(n - 1), chunkSz, Addr(n - 1));
      } else {
        ApartNone(chunkSz);
      }
    }

    static lemma ApartNone(size: nat)
      ensures Apart({}, size)
    {
    }

    /** The chunks lie behind the 24 bytes of the header. */
    lemma {:induction false} AddrIs(k: nat)
      ensures Addr(k) == base + 24 + k * chunkSz
    {
      if k > 0 {
        AddrIs(k - 1);
        assert k * chunkSz == (k - 1) * chunkSz + chunkSz;
      }
    }

    /** Another chunk fits above `n` chunks iff fewer fit than the capacity. */
    lemma FitsIffBelow(n: nat)
      requires chunkSz > 0
      ensures Addr(n) + chunkSz <= base + len <==> n < Capacity()
    {
      AddrIs(n + 1);
      if len >= HEADER {
        var q, r := (len - HEADER) / chunkSz, (len - HEADER) % chunkSz;
        assert len - HEADER == q * chunkSz + r;
        if n < q {
          MulLe(n + 1, q);
        } else {
          MulLe(q + 1, n + 1);
        }
      }
    }

    lemma MulLe(x: nat, y: nat)
      requires x <= y
      ensures x * chunkSz <= y * chunkSz
    {
      assert y * chunkSz == x * chunkSz + (y - x) * chunkSz;
    }

    /** The live chunks lie inside the region and do not overlap. */
    lemma LiveChunks()
      requires Valid()
      ensures forall a :: a in live ==> base + HEADER <= a && a + chunkSz <= base + len
      ensures forall a, b :: a in live && b in live && a < b ==> a + chunkSz <= b
    {
      ChunksApart(slots);
      ChunksBelow(slots);
    }

    /** The chunks below the wilderness are no more than fit. */
    lemma LiveCount()
      requires Valid()
      ensures |live| + |freeList| == slots <= Capacity()
      ensures free == 0 <==> freeList == []
    {
      ChunksBelow(slots);
      PartitionSize(freeList, live, Chunks(slots));
      if slots > 0 {
        FitsIffBelow(slots - 1);
      }
      assert freeList != [] ==> freeList[0] in Elements(freeList);
    }

    static lemma PartitionSize(freeList: seq<nat>, live: set<nat>, chunks: set<nat>)
      requires Partition(freeList, live, chunks)
      ensures |live| + |freeList| == |chunks|
    {
      DistinctSize(freeList);
    }

    static lemma {:induction false} DistinctSize(s: seq<nat>)
      requires forall i, j :: 0 <= i < j < |s| ==> s[i] != s[j]
      ensures |Elements(s)| == |s|
    {
      if s == [] {
        assert Elements(s) == {};
      } else {
        DistinctSize(s[1..]);
        assert Elements(s) == Elements(s[1..]) + {s[0]};
      }
    }

    static lemma PartitionGrow(freeList: seq<nat>, live: set<nat>, chunks: set<nat>, a: nat)
      requires Partition(freeList, live, chunks) && a !in chunks
      ensures Partition(freeList, live + {a}, chunks + {a}) && a !in live
    {
    }

    static lemma PartitionShrink(freeList: seq<nat>, live: set<nat>, chunks: set<nat>, a: nat)
      requires Partition(freeList, live, chunks + {a}) && a !in chunks && a in live
      ensures Partition(freeList, live - {a}, chunks)
    {
    }

    static lemma PartitionPop(freeList: seq<nat>, live: set<nat>, chunks: set<nat>)
      requires Partition(freeList, live, chunks) && freeList != []
      ensures Partition(freeList[1..], live + {freeList[0]}, chunks)
      ensures freeList[0] !in live && freeList[0] in chunks
    {
      assert Elements(freeList) == Elements(freeList[1..]) + {freeList[0]};
    }

    static lemma PartitionPush(freeList: seq<nat>, live: set<nat>, chunks: set<nat>, a: nat)
      requires Partition(freeList, live, chunks) && a in live
      ensures Partition([a] + freeList, live - {a}, chunks) && a in chunks
    {
      assert ([a] + freeList)[1..] == freeList;
      assert Elements([a] + freeList) == Elements(freeList) + {a};
    }

    lemma ChunkNew(n: nat)
      requires chunkSz > 0
      ensures Addr(n) !in Chunks(n) && Addr(n) > base
      ensures Chunks(n + 1) == Chunks(n) + {Addr(n)}
    {
      ChunksBelow(n);
      ChunksBelow(n + 1);
    }

    /** pool_new */
    constructor (base: nat, len: nat, chunkSz: nat)
      requires base > 0 && chunkSz >= LINK_SIZE
      ensures Valid() && live == {} && slots == 0 && freeList == []
      ensures this.base == base && this.len == len && this.chunkSz == chunkSz
    {
      this.base, this.len, this.chunkSz := base, len, chunkSz;
      wilderness, free, mem := base + HEADER, 0, map[];
      slots, freeList, live := 0, [], {};
    }

    /** pool_alloc: 0 exactly when the pool is full. */
    method Alloc() returns (ret: nat)
      requires Valid()
      modifies this
      ensures Valid()
      ensures ret == 0 <==> |old(live)| == Capacity()
      ensures if ret == 0 then live == old(live) else ret !in old(live) && live == old(live) + {ret}
      ensures if old(freeList) != [] then
                ret == old(freeList)[0] && freeList == old(freeList)[1..] && slots == old(slots)
              else ret == (if ret == 0 then 0 else Addr(old(slots))) && freeList == []
                   && slots == old(slots) + if ret == 0 then 0 else 1
    {
      LiveCount();
      if free != 0 {
        ret := PopFree();
        return;
      }
      FitsIffBelow(slots);
      if wilderness + chunkSz > base + len {
        return 0;
      }
      ret := Grow();
    }

    /** A chunk from the wilderness. */
    method Grow() returns (ret: nat)
      requires Valid() && wilderness + chunkSz <= base + len
      modifies this
      ensures Valid() && ret == Addr(old(slots)) != 0
      ensures slots == old(slots) + 1 && freeList == old(freeList)
      ensures ret !in old(live) && live == old(live) + {ret}
    {
      ChunkNew(slots);
      PartitionGrow(freeList, live, Chunks(slots), wilderness);
      ret := wilderness;
      wilderness := wilderness + chunkSz;
      slots, live := slots + 1, live + {ret};
    }

    /** The head of the free list. */
    method PopFree() returns (ret: nat)
      requires Valid() && free != 0
      modifies this
      ensures Valid() && ret != 0
      ensures old(freeList) != [] && ret == old(freeList)[0] && freeList == old(freeList)[1..] && slots == old(slots)
      ensures ret !in old(live) && live == old(live) + {ret}
    {
      ghost var was := freeList;
      PartitionPop(was, live, Chunks(slots));
      assert LinkAt(mem, was, 0);
      ret := free;
      free := mem[free];
      freeList, live := was[1..], live + {ret};
      forall i | 0 <= i < |freeList| ensures LinkAt(mem, freeList, i) {
        assert LinkAt(mem, was, i + 1);
        assert was[i + 1 + 1..] == freeList[i + 1..];
      }
    }

    /** pool_free: the highest chunk goes back to the wilderness, any other to the
        front of the free list. */
    method Free(ptr: nat)
      requires Valid() && ptr in live
      modifies this
      ensures Valid() && live == old(live) - {ptr}
      ensures if ptr + chunkSz == old(Addr(slots)) then slots == old(slots) - 1 && freeList == old(freeList)
              else slots == old(slots) && freeList == [ptr] + old(freeList)
    {
      if ptr + chunkSz == wilderness {
        Shrink(ptr);
      } else {
        PushFree(ptr);
      }
    }

    /** The highest chunk goes back to the wilderness. */
    method Shrink(ptr: nat)
      requires Valid() && ptr in live && ptr + chunkSz == wilderness
      modifies this
      ensures Valid() && live == old(live) - {ptr} && slots == old(slots) - 1 && freeList == old(freeList)
    {
      assert ptr in Chunks(slots);
      ghost var n := slots - 1;
      ChunkNew(n);
      assert ptr == Addr(n) && Chunks(slots) == Chunks(n) + {ptr};
      PartitionShrink(freeList, live, Chunks(n), ptr);
      wilderness := wilderness - chunkSz;
      slots, live := n, live - {ptr};
    }

    method PushFree(ptr: nat)
      requires Valid() && ptr in live
      modifies this
      ensures Valid() && live == old(live) - {ptr} && slots == old(slots) && freeList == [ptr] + old(freeList)
    {
      ghost var was := freeList;
      PartitionPush(was, live, Chunks(slots), ptr);
      mem := mem[ptr := free];
      free := ptr;
      freeList, live := [ptr] + was, live - {ptr};
      assert freeList[1..] == was;
      forall i | 0 <= i < |freeList| ensures LinkAt(mem, freeList, i) {
        if i > 0 {
          assert LinkAt(old(mem), was, i - 1);
          assert freeList[i + 1..] == was[i..];
          assert was[i - 1] in Elements(was);
        }
      }
    }
  }
}
