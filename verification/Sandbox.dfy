/** The C SDK's user-space simulation: a pool inside a mapped region, a bump allocator over
    it, and the classification of accesses.  `size_t` and `uintptr_t` are 64 bits wide. */
module Sandbox {

  const WORD := 0x1_0000_0000_0000_0000
  const OUTER_SIZE := 8 * 1024 * 1024
  const INNER_SIZE := 4 * 1024 * 1024
  const GUARD := 2 * 1024 * 1024
  const POISON := 0xBAADF00D

  /** `(size + 7) & ~7` on machine words. */
  function Aligned(size: nat): nat {
    var sum := (size + 7) % WORD;
    sum - sum % 8
  }

  /** The least multiple of 8 that is not below `size`. */
  function RoundUp(size: nat): nat {
    (size + 7) / 8 * 8
  }

  /** The mask clears the three low bits. */
  lemma MaskClearsLowBits(x: bv64)
    ensures x & 0xFFFF_FFFF_FFFF_FFF8 == x - x % 8
  {
  }

  lemma RoundUpIsLeast(size: nat, m: nat)
    ensures RoundUp(size) % 8 == 0 && size <= RoundUp(size)
    ensures m % 8 == 0 && size <= m ==> RoundUp(size) <= m
  {
    var up := (size + 7) / 8;
    assert size + 7 == 8 * up + (size + 7) % 8;
    assert RoundUp(size) == 8 * up;
    var k := m / 8;
    assert m == 8 * k + m % 8;
  }

  /** The test of `pronze_malloc` at a given offset. */
  predicate Granted(offset: nat, size: nat) {
    (offset + Aligned(size)) % WORD <= INNER_SIZE
  }

  predicate Fits(offset: nat, size: nat) {
    offset + RoundUp(size) <= INNER_SIZE
  }

  /** No machine addition in `pronze_malloc` wraps around. */
  predicate NoWrap(offset: nat, size: nat) {
    size + 7 < WORD && offset + RoundUp(size) < WORD
  }

  /** For every request the machine test agrees with the intended one exactly when nothing wraps around. */
  lemma GrantedIffFitsIffNoWrap(offset: nat, size: nat)
    requires offset <= INNER_SIZE && size < WORD
    ensures (Granted(offset, size) <==> Fits(offset, size)) <==> NoWrap(offset, size)
    ensures NoWrap(offset, size) ==> Aligned(size) == RoundUp(size)
  {
  }

  /** Requests that cannot wrap at any offset of the pool. */
  predicate Tame(size: nat) {
    size + 7 + INNER_SIZE < WORD
  }

  lemma TameNoWrap(offset: nat, size: nat)
    requires offset <= INNER_SIZE && Tame(size)
    ensures NoWrap(offset, size)
  {
  }

  /** A block returned by `pronze_malloc`: its address and the size asked for. */
  datatype Block = Block(ptr: nat, size: nat)

  datatype Request = Malloc(size: nat, roll: nat) | FreePtr(ptr: nat) | SetRate(rate: int)

  /** The simulation state, with the blocks granted so far. */
  datatype State = State(outer: nat, rate: int, offset: nat, blocks: seq<Block>)

  const PAGE := 4096

  /** What `mmap` returns: a page address whose mapping does not reach the end of the address space. */
  predicate Mapped(outer: nat) {
    0 < outer && outer % PAGE == 0 && outer + OUTER_SIZE < WORD
  }

  function Inner(outer: nat): nat {
    outer + GUARD
  }

  function Initial(outer: nat): State {
    State(outer, 0, 0, [])
  }

  /** Fault injection: `rand() % 100` below a positive rate. */
  predicate Faulted(rate: int, roll: nat) {
    rate > 0 && roll % 100 < rate
  }

  function Step(s: State, r: Request): State {
    match r
    case Malloc(size, roll) =>
      if Faulted(s.rate, roll) || !Granted(s.offset, size) then s
      else s.(offset := (s.offset + Aligned(size)) % WORD,
              blocks := s.blocks + [Block(Inner(s.outer) + s.offset, size)])
    case FreePtr(_) => s
    case SetRate(rate) => if 0 <= rate <= 100 then s.(rate := rate) else s
  }

  function After(s: State, rs: seq<Request>): State {
    if rs == [] then s else Step(After(s, rs[..|rs| - 1]), rs[|rs| - 1])
  }

  function Access(outer: nat, ptr: nat): int {
    if ptr == 0 then -2
    else if Inner(outer) <= ptr < Inner(outer) + INNER_SIZE then 0
    else if outer <= ptr < outer + OUTER_SIZE then -1
    else -2
  }

  function Total(blocks: seq<Block>): nat {
    if blocks == [] then 0 else Total(blocks[..|blocks| - 1]) + RoundUp(blocks[|blocks| - 1].size)
  }

  /** Every block starts where the rounded sizes before it end, inside the pool. */
  ghost predicate Packed(s: State) {
    && s.offset == Total(s.blocks) && s.offset <= INNER_SIZE
    && forall k :: 0 <= k < |s.blocks| ==> s.blocks[k].ptr == Inner(s.outer) + Total(s.blocks[..k])
  }

  ghost predicate AllTame(rs: seq<Request>) {
    forall r <- rs :: r.Malloc? ==> Tame(r.size)
  }

  lemma StepPacked(s: State, r: Request)
    requires Packed(s) && (r.Malloc? ==> Tame(r.size))
    ensures Packed(Step(s, r))
  {
    var t := Step(s, r);
    if r.Malloc? && t != s {
      TameNoWrap(s.offset, r.size);
      GrantedIffFitsIffNoWrap(s.offset, r.size);
      assert t.blocks[..|t.blocks| - 1] == s.blocks;
      assert forall k :: 0 <= k < |s.blocks| ==> t.blocks[..k] == s.blocks[..k];
    }
  }

  lemma {:induction false} AlwaysPacked(outer: nat, rs: seq<Request>)
    requires AllTame(rs)
    ensures Packed(After(Initial(outer), rs)) && After(Initial(outer), rs).outer == outer
    decreases |rs|
  {
    if rs != [] {
      var front := rs[..|rs| - 1];
      assert forall r <- front :: r in rs;
      AlwaysPacked(outer, front);
      StepPacked(After(Initial(outer), front), rs[|rs| - 1]);
    }
  }

  lemma {:induction false} TotalMonotone(blocks: seq<Block>, k: nat)
    requires k < |blocks|
    ensures Total(blocks[..k]) % 8 == 0
    ensures Total(blocks[..k]) + RoundUp(blocks[k].size) == Total(blocks[..k + 1]) <= Total(blocks)
    decreases |blocks|
  {
    var front := blocks[..|blocks| - 1];
    if k < |front| {
      TotalMonotone(front, k);
      assert front[..k] == blocks[..k] && front[..k + 1] == blocks[..k + 1];
    } else {
      assert blocks[..k + 1] == blocks && blocks[..k] == front;
      TotalAligned(front);
    }
    assert blocks[..k + 1][..k] == blocks[..k];
  }

  lemma {:induction false} TotalAligned(blocks: seq<Block>)
    ensures Total(blocks) % 8 == 0
    decreases |blocks|
  {
    if blocks != [] {
      TotalAligned(blocks[..|blocks| - 1]);
    }
  }

  lemma BlockInPool(s: State, k: nat)
    requires Packed(s) && k < |s.blocks|
    ensures Inner(s.outer) <= s.blocks[k].ptr && s.blocks[k].ptr + s.blocks[k].size <= Inner(s.outer) + s.offset
    ensures (s.blocks[k].ptr - Inner(s.outer)) % 8 == 0
  {
    TotalMonotone(s.blocks, k);
    RoundUpIsLeast(s.blocks[k].size, 0);
  }

  lemma BlocksInOrder(s: State, j: nat, k: nat)
    requires Packed(s) && j < k < |s.blocks|
    ensures s.blocks[j].ptr + s.blocks[j].size <= s.blocks[k].ptr
  {
    TotalMonotone(s.blocks[..k], j);
    assert s.blocks[..k][..j] == s.blocks[..j];
    RoundUpIsLeast(s.blocks[j].size, 0);
  }

  /** After any sequence of requests that cannot wrap: the offset is the sum of the granted
      rounded sizes and at most 4 MiB (4194304); every block is 8-aligned and every byte of it classifies
      as a valid access; and earlier blocks end before later ones begin. */
  lemma AllocationsSound(outer: nat, rs: seq<Request>)
    requires Mapped(outer) && AllTame(rs)
    ensures var s := After(Initial(outer), rs);
            && s.offset == Total(s.blocks) <= 4194304
            && (forall k :: 0 <= k < |s.blocks| ==> s.blocks[k].ptr != 0 && s.blocks[k].ptr % 8 == 0)
            && (forall k, byte ::
                  0 <= k < |s.blocks| && s.blocks[k].ptr <= byte < s.blocks[k].ptr + s.blocks[k].size ==>
                  Access(outer, byte) == 0)
            && (forall j, k :: 0 <= j < k < |s.blocks| ==> s.blocks[j].ptr + s.blocks[j].size <= s.blocks[k].ptr)
  {
    AlwaysPacked(outer, rs);
    var s := After(Initial(outer), rs);
    forall k | 0 <= k < |s.blocks| ensures Sound(outer, s.blocks[k]) {
      BlockSound(s, outer, k);
    }
    forall j, k | 0 <= j < k < |s.blocks| ensures s.blocks[j].ptr + s.blocks[j].size <= s.blocks[k].ptr {
      BlocksInOrder(s, j, k);
    }
  }

  ghost predicate Sound(outer: nat, b: Block) {
    && b.ptr != 0 && b.ptr % 8 == 0
    && forall byte :: b.ptr <= byte < b.ptr + b.size ==> Access(outer, byte) == 0
  }

  lemma BlockSound(s: State, outer: nat, k: nat)
    requires Packed(s) && s.outer == outer && Mapped(outer) && k < |s.blocks| && s.offset <= INNER_SIZE
    ensures Sound(outer, s.blocks[k])
  {
    BlockInPool(s, k);
    EightDivides(outer, s.blocks[k].ptr);
  }

  lemma EightDivides(outer: nat, ptr: nat)
    requires outer % PAGE == 0 && Inner(outer) <= ptr && (ptr - Inner(outer)) % 8 == 0
    ensures ptr % 8 == 0
  {
  }

  /** A request succeeds exactly when no fault is injected, which is when the rate is 0 or the roll is not below it,
      and its rounded size still fits into the 4 MiB; a refused one changes nothing. */
  lemma SucceedsIffFits(outer: nat, rs: seq<Request>, size: nat, roll: nat)
    requires AllTame(rs) && Tame(size)
    ensures var s, t := After(Initial(outer), rs), Step(After(Initial(outer), rs), Malloc(size, roll));
            if (s.rate > 0 ==> roll % 100 >= s.rate) && Total(s.blocks) + RoundUp(size) <= 4194304
            then t == s.(offset := s.offset + RoundUp(size),
                         blocks := s.blocks + [Block(outer + 2097152 + s.offset, size)])
            else t == s
  {
    AlwaysPacked(outer, rs);
    TameNoWrap(After(Initial(outer), rs).offset, size);
    GrantedIffFitsIffNoWrap(After(Initial(outer), rs).offset, size);
  }

  /** The rate is the last one that was set within 0 and 100. */
  lemma RateIsLastSet(s: State, r: Request)
    ensures Step(s, r).rate == if r.SetRate? && 0 <= r.rate <= 100 then r.rate else s.rate
  {
  }

  /** How many of the rolls below `n` inject a fault. */
  function Faults(rate: int, n: nat): nat {
    if n == 0 then 0 else Faults(rate, n - 1) + if Faulted(rate, n - 1) then 1 else 0
  }

  lemma {:induction false} FaultsBelow(rate: nat, n: nat)
    requires n <= 100
    ensures Faults(rate, n) == if n <= rate then n else rate
    decreases n
  {
    if n > 0 {
      FaultsBelow(rate, n - 1);
    }
  }

  /** A rate is a percentage: of the hundred remainders a roll can have, as many inject a fault as the rate says. */
  lemma FaultsPerHundred(rate: nat, roll: nat)
    requires rate <= 100
    ensures Faults(rate, 100) == rate && (Faulted(rate, roll) <==> Faulted(rate, roll % 100))
  {
    FaultsBelow(rate, 100);
  }

  /** The pool of 4 MiB, the two guard zones of 2 MiB around it, and everything else are told apart. */
  lemma AccessByZone(outer: nat, ptr: nat)
    requires Mapped(outer) && ptr < WORD
    ensures Access(outer, ptr) == 0 <==> outer + 2097152 <= ptr < outer + 6291456
    ensures Access(outer, ptr) == -1 <==> outer <= ptr < outer + 2097152 || outer + 6291456 <= ptr < outer + 8388608
    ensures Access(outer, ptr) == -2 <==> ptr < outer || outer + 8388608 <= ptr
  {
  }

  /** A request of SIZE_MAX bytes is granted, although it cannot fit, and gets no room of its own. */
  lemma HugeRequestGranted(s: State, roll: nat)
    requires s.rate == 0 && s.offset <= 4194304
    ensures var t := Step(s, Malloc(0xFFFF_FFFF_FFFF_FFFF, roll));
            t.offset == s.offset && |t.blocks| == |s.blocks| + 1
    ensures !Fits(s.offset, 0xFFFF_FFFF_FFFF_FFFF)
  {
  }

  /** `PronzeContext`. */
  class PronzeContext {
    var fd: int
    var failureRate: int
    var simulationMode: bool
    var simOuterSpace: nat
    var simOuterSize: nat
    var simInnerSpace: nat
    var simInnerSize: nat
    var simOffset: nat
    ghost var blocks: seq<Block>

    /** Laid out by a successful `pronzeInit` in simulation mode, with the bump offset inside the pool. */
    ghost predicate Simulating()
      reads this
    {
      && simulationMode && Mapped(simOuterSpace)
      && simOuterSize == OUTER_SIZE && simInnerSize == INNER_SIZE && simInnerSpace == Inner(simOuterSpace)
      && simOffset <= INNER_SIZE
    }

    ghost function Now(): State
      reads this
    {
      State(simOuterSpace, failureRate, simOffset, blocks)
    }

    constructor ()
    {
    }

    /** `pronzeInit`: `device` is what opening the driver gave, `mapping` what `mmap` gave (0 when it failed). */
    method Init(device: int, mapping: nat) returns (r: int)
      requires mapping != 0 ==> Mapped(mapping)
      modifies this
      ensures r == if device < 0 && mapping == 0 then -1 else 0
      ensures simulationMode == (device < 0) && failureRate == 0
      ensures device >= 0 ==> fd == device
      ensures r == 0 && device < 0 ==> Simulating() && Now() == Initial(mapping)
      ensures r == 0 && device < 0 ==>
        simOuterSize == 8388608 && simInnerSize == 4194304 && simInnerSpace == mapping + 2097152 && simOffset == 0
    {
      failureRate, blocks := 0, [];
      if device >= 0 {
        fd, simulationMode := device, false;
        simOuterSpace, simOuterSize, simInnerSpace, simInnerSize, simOffset := 0, 0, 0, 0, 0;
      } else {
        fd, simulationMode := -1, true;
        simOuterSize, simInnerSize := OUTER_SIZE, INNER_SIZE;
        if mapping == 0 {
          return -1;
        }
        simOuterSpace, simInnerSpace, simOffset := mapping, mapping + GUARD, 0;
      }
      r := 0;
    }

    /** `pronzeEnableAllocationFailure`; `told` says whether the driver, in kernel mode, took the rate. */
    method EnableAllocationFailure(rate: int, told: bool) returns (r: int)
      requires simulationMode ==> Simulating()
      modifies `failureRate
      ensures r == if rate < 0 || rate > 100 || (!simulationMode && !told) then -1 else 0
      ensures simulationMode ==> Simulating()
      ensures Now() == Step(old(Now()), SetRate(rate))
      ensures failureRate == if 0 <= rate <= 100 then rate else old(failureRate)
    {
      if rate < 0 || rate > 100 {
        return -1;
      }
      failureRate := rate;
      if !simulationMode && !told {
        return -1;
      }
      r := 0;
    }

    /** `pronze_malloc`; `roll` is what `rand` gives, `heap` what the C library's `malloc` would
        give, and 0 a null pointer.  `recorded` is what the driver is told in kernel mode. */
    method PronzeMalloc(size: nat, roll: nat, heap: nat) returns (ptr: nat, recorded: seq<nat>)
      requires (simulationMode ==> Simulating()) && size < WORD
      modifies `simOffset, `blocks
      ensures simulationMode ==> Simulating() && Now() == Step(old(Now()), Malloc(size, roll)) && recorded == []
      ensures simulationMode ==>
        ptr == if (failureRate > 0 && roll % 100 < failureRate) || !Granted(old(simOffset), size) then 0
               else simInnerSpace + old(simOffset)
      ensures !simulationMode ==>
        Now() == old(Now()) && ptr == if failureRate > 0 && roll % 100 < failureRate then 0 else heap
      ensures !simulationMode ==> recorded == if fd < 0 then [] else if ptr == 0 then [1] else [0]
    {
      var triggeredFailure := false;
      if failureRate > 0 {
        var r := roll % 100;
        if r < failureRate {
          triggeredFailure := true;
        }
      }
      if triggeredFailure {
        ptr := 0;
      } else if !simulationMode {
        ptr := heap;
      } else {
        var alignedSize := Aligned(size);
        if (simOffset + alignedSize) % WORD > simInnerSize {
          ptr := 0;
        } else {
          ptr := simInnerSpace + simOffset;
          blocks := blocks + [Block(ptr, size)];
          simOffset := (simOffset + alignedSize) % WORD;
        }
      }
      recorded := if simulationMode || fd < 0 then [] else if ptr == 0 then [1] else [0];
    }

    /** `pronze_free`: whether the C library's `free` is called, or, in simulation mode, whether
        the pointer is one of the pool's; nothing changes. */
    method PronzeFree(ptr: nat) returns (passedOn: bool, accepted: bool)
      requires simulationMode ==> Simulating()
      ensures passedOn <==> !simulationMode && ptr != 0
      ensures accepted <==> simulationMode && ptr != 0 && Access(simOuterSpace, ptr) == 0
    {
      passedOn, accepted := false, false;
      if ptr == 0 {
        return;
      }
      if !simulationMode {
        passedOn := true;
      } else {
        var innerEnd := simInnerSpace + simInnerSize;
        accepted := simInnerSpace <= ptr < innerEnd;
      }
    }

    /** `pronzeSimulateAccess`. */
    method SimulateAccess(ptr: nat) returns (r: int)
      requires simulationMode ==> Simulating()
      ensures simulationMode ==> r == Access(simOuterSpace, ptr)
      ensures !simulationMode ==> r == if ptr == 0 || ptr == 0xBAADF00D then -2 else 0
    {
      if ptr == 0 {
        return -2;
      }
      if !simulationMode {
        return if ptr == POISON then -2 else 0;
      }
      var innerEnd, outerEnd := simInnerSpace + simInnerSize, simOuterSpace + simOuterSize;
      if simInnerSpace <= ptr < innerEnd {
        r := 0;
      } else if simOuterSpace <= ptr < outerEnd {
        r := -1;
      } else {
        r := -2;
      }
    }
  }
}
