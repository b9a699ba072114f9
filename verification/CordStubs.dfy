/** The three stubs of a cord (braidvadd in braid.c) and the chunks of the pool
    that they are written to. */
module CordStubs {
  import opened Pools
  import Arm64
  import X86

  datatype Arch = Aarch64 | X8664

  function MaxArgs(arch: Arch): nat {
    match arch
    case Aarch64 => Arm64.BIND_MAX_ARGS
    case X8664 => X86.BIND_MAX_ARGS
  }

  /** The bytes of a stub that binds `n` constants. */
  function ConstantsSize(arch: Arch, n: nat): nat {
    match arch
    case Aarch64 => Arm64.BindSize(0, n, 0)
    case X8664 => X86.BindSize(0, n, 0)
  }

  /** `LAMBDA_COMPOSE_SIZE` */
  function ComposeSize(arch: Arch): nat {
    match arch
    case Aarch64 => 40
    case X8664 => 27
  }

  /** What braidinit makes the chunks hold. */
  function ChunkSize(arch: Arch): nat {
    ConstantsSize(arch, MaxArgs(arch) - 1)
  }

  /** The bytes of the stub `k` of a cord whose function has `nargs` arguments:
      the composition, the end of the cord, and the function, if bound. */
  function StubBytes(arch: Arch, k: nat, nargs: nat): nat {
    if k == 0 then ComposeSize(arch)
    else if k == 1 then ConstantsSize(arch, 1)
    else if nargs == 0 then 0
    else ConstantsSize(arch, nargs)
  }

  /** The byte `x` belongs to the stub `k`. */
  predicate InStub(arch: Arch, chunks: seq<nat>, nargs: nat, k: nat, x: nat)
    requires k < |chunks|
  {
    chunks[k] <= x < chunks[k] + StubBytes(arch, k, nargs)
  }

  /** Three different live chunks of a pool with the chunks of braidinit. */
  ghost predicate HasChunks(pool: Pool, arch: Arch, chunks: seq<nat>)
    reads pool
  {
    && pool.Valid() && pool.chunkSz == ChunkSize(arch)
    && |chunks| == 3 && (forall k :: 0 <= k < 3 ==> chunks[k] in pool.live)
    && (forall j, k :: 0 <= j < k < 3 ==> chunks[j] != chunks[k])
  }

  /** Every byte of a stub is in its own chunk, and in no other live one. */
  ghost predicate StubsStay(pool: Pool, arch: Arch, chunks: seq<nat>, nargs: nat)
    requires |chunks| == 3
    reads pool
  {
    forall k: nat, x: nat :: k < 3 && InStub(arch, chunks, nargs, k, x) ==>
      && x < chunks[k] + pool.chunkSz
      && forall a :: a in pool.live && a != chunks[k] ==> x < a || a + pool.chunkSz <= x
  }

  /** The stubs stay in the cord's chunks if and only if its function has fewer
      arguments than can be bound; otherwise the third runs into what lies behind
      its chunk. */
  lemma StayIffFewer(pool: Pool, arch: Arch, chunks: seq<nat>, nargs: nat)
    requires HasChunks(pool, arch, chunks)
    ensures StubsStay(pool, arch, chunks, nargs) <==> nargs < MaxArgs(arch)
    ensures nargs >= MaxArgs(arch) ==> InStub(arch, chunks, nargs, 2, chunks[2] + pool.chunkSz)
  {
    pool.LiveChunks();
    if nargs >= MaxArgs(arch) {
      assert InStub(arch, chunks, nargs, 2, chunks[2] + pool.chunkSz);
    }
  }
}
