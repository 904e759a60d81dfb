/** Threads per core and cores per socket from the extended topology
    enumeration of CPUID leaf 0BH (Intel SDM Vol. 2A), and the socket count
    derived from them. */
module Topology {
  import opened Bits

  /** The report's `threads_per_core` and `cores_per_socket`, both C `int`. */
  datatype Counts = Counts(threads: int, cores: int)

  const NO_COUNTS: Counts := Counts(0, 0)

  predicate ValidCounts(t: Counts) {
    IsInt32(t.threads) && IsInt32(t.cores)
  }

  /** ECX[15:8], the level type: 1 is SMT, 2 is core. */
  function LevelType(ecx: bv32): bv32 { (ecx >> 8) & 0xFF }

  /** The subleaf that ends the enumeration: EAX = EBX = 0. */
  predicate EndOfLevels(r: Regs) {
    r.eax == 0 && r.ebx == 0
  }

  /** One level: an SMT level sets the threads, a core level the cores,
      each to the whole of EBX converted to `int`. */
  function LevelStep(t: Counts, r: Regs): Counts {
    var kind := LevelType(r.ecx);
    if kind == 1 then t.(threads := ToInt32(r.ebx))
    else if kind == 2 then t.(cores := ToInt32(r.ebx))
    else t
  }

  /** The levels the walk processes: those before the first end marker. */
  function WalkedLevels(subs: seq<Regs>): (w: seq<Regs>)
    ensures |w| <= |subs| && w == subs[..|w|]
    ensures forall i :: 0 <= i < |w| ==> !EndOfLevels(w[i])
    ensures |w| < |subs| ==> EndOfLevels(subs[|w|])
  {
    if subs == [] || EndOfLevels(subs[0]) then [] else [subs[0]] + WalkedLevels(subs[1..])
  }

  /** The leaf-0BH `for (subleaf = 0; ; subleaf++)` loop over the given
      answers; it also stops when the answers run out. */
  function LevelWalk(t: Counts, subs: seq<Regs>): (d: Counts)
    ensures ValidCounts(t) ==> ValidCounts(d)
    ensures WalkedLevels(subs) == [] ==> d == t
    decreases |subs|
  {
    if subs == [] || EndOfLevels(subs[0]) then t
    else LevelWalk(LevelStep(t, subs[0]), subs[1..])
  }

  /** The EBX of the last level of the given type, if any. */
  function LastOfType(levels: seq<Regs>, kind: bv32): Option<bv32> {
    if levels == [] then None
    else if LevelType(levels[|levels| - 1].ecx) == kind then Some(levels[|levels| - 1].ebx)
    else LastOfType(levels[..|levels| - 1], kind)
  }

  function ValueOr(o: Option<bv32>, default: int): int {
    if o.Some? then ToInt32(o.value) else default
  }

  function StepAll(t: Counts, levels: seq<Regs>): Counts
    decreases |levels|
  {
    if levels == [] then t else StepAll(LevelStep(t, levels[0]), levels[1..])
  }

  lemma {:induction false} WalkIsStepAll(t: Counts, subs: seq<Regs>)
    ensures LevelWalk(t, subs) == StepAll(t, WalkedLevels(subs))
    decreases |subs|
  {
    if subs != [] && !EndOfLevels(subs[0]) {
      WalkIsStepAll(LevelStep(t, subs[0]), subs[1..]);
      assert ([subs[0]] + WalkedLevels(subs[1..]))[1..] == WalkedLevels(subs[1..]);
    }
  }

  lemma {:induction false} StepAllSnoc(t: Counts, levels: seq<Regs>, r: Regs)
    ensures StepAll(t, levels + [r]) == LevelStep(StepAll(t, levels), r)
    decreases |levels|
  {
    if levels == [] {
      assert [] + [r] == [r];
    } else {
      assert (levels + [r])[1..] == levels[1..] + [r];
      StepAllSnoc(LevelStep(t, levels[0]), levels[1..], r);
    }
  }

  lemma {:induction false} StepAllLastOfType(t: Counts, levels: seq<Regs>)
    ensures StepAll(t, levels).threads == ValueOr(LastOfType(levels, 1), t.threads)
    ensures StepAll(t, levels).cores == ValueOr(LastOfType(levels, 2), t.cores)
    decreases |levels|
  {
    if levels != [] {
      var pre, last := levels[..|levels| - 1], levels[|levels| - 1];
      assert levels == pre + [last];
      StepAllSnoc(t, pre, last);
      StepAllLastOfType(t, pre);
    }
  }

  /** After the walk, the threads are the EBX of the last SMT level before
      the end marker and the cores that of the last core level; a count
      that no processed level names keeps its earlier value. */
  lemma LevelWalkLastWriter(t: Counts, subs: seq<Regs>)
    ensures LevelWalk(t, subs).threads == ValueOr(LastOfType(WalkedLevels(subs), 1), t.threads)
    ensures LevelWalk(t, subs).cores == ValueOr(LastOfType(WalkedLevels(subs), 2), t.cores)
  {
    WalkIsStepAll(t, subs);
    StepAllLastOfType(t, WalkedLevels(subs));
  }

  /** `if (threads) cores = cores / threads;` */
  function DivideCores(t: Counts): (d: Counts)
    ensures d.threads == t.threads
    ensures t.threads == 0 ==> d.cores == t.cores
    ensures ValidCounts(t) && t.threads != 0 && !(t.cores == INT_MIN && t.threads == -1)
            ==> d.cores == TruncDiv(t.cores, t.threads)
  {
    if t.threads != 0 then t.(cores := Int32Div(t.cores, t.threads)) else t
  }

  /** The leaf-0BH step of the report. */
  function LeafB(t: Counts, subs: seq<Regs>): (d: Counts)
    ensures d.threads == ValueOr(LastOfType(WalkedLevels(subs), 1), t.threads)
    ensures d.threads == 0 ==> d.cores == ValueOr(LastOfType(WalkedLevels(subs), 2), t.cores)
    ensures ValidCounts(t) && d.threads != 0
            && !(ValueOr(LastOfType(WalkedLevels(subs), 2), t.cores) == INT_MIN && d.threads == -1)
            ==> d.cores == TruncDiv(ValueOr(LastOfType(WalkedLevels(subs), 2), t.cores), d.threads)
  {
    LevelWalkLastWriter(t, subs);
    DivideCores(LevelWalk(t, subs))
  }

  lemma {:induction false} StepAllValid(t: Counts, levels: seq<Regs>)
    requires ValidCounts(t)
    ensures ValidCounts(StepAll(t, levels))
    decreases |levels|
  {
    if levels != [] {
      StepAllValid(LevelStep(t, levels[0]), levels[1..]);
    }
  }

  /** Both counts remain values of C `int`. */
  lemma LeafBValid(t: Counts, subs: seq<Regs>)
    requires ValidCounts(t)
    ensures ValidCounts(LeafB(t, subs))
  {
    WalkIsStepAll(t, subs);
    StepAllValid(t, WalkedLevels(subs));
  }

  /** An SMT level with two threads, a core level with eight logical
      processors, then the end marker: two threads per core and four cores
      per socket. */
  lemma LeafBExample()
    ensures LeafB(NO_COUNTS, [Regs(1, 2, 0x100, 0), Regs(4, 8, 0x201, 0), Regs(0, 0, 2, 0)])
            == Counts(2, 4)
  {
    var subs := [Regs(1, 2, 0x100, 0), Regs(4, 8, 0x201, 0), Regs(0, 0, 2, 0)];
    assert LevelType(0x100) == 1 && LevelType(0x201) == 2;
    assert LevelWalk(NO_COUNTS, subs) == Counts(2, 8);
    assert TruncDiv(8, 2) == 4;
  }

  /** The socket count line: `total / (threads * cores)`, printed only
      when both counts are nonzero.  The product is an `int`
      multiplication; the caller must not let it be zero. */
  function SocketCount(total: int, t: Counts): (r: Option<int>)
    requires t.threads != 0 && t.cores != 0 ==> Wrap32(t.threads * t.cores) != 0
    ensures r.Some? <==> t.threads != 0 && t.cores != 0
  {
    if t.threads != 0 && t.cores != 0 then Some(Int32Div(total, Wrap32(t.threads * t.cores)))
    else None
  }

  /** After the division the product of the two counts can neither be zero
      nor overflow, except through INT_MIN / -1, where it is still nonzero:
      the socket count is always defined. */
  lemma SocketCountDefined(t: Counts)
    requires ValidCounts(t)
    ensures var d := DivideCores(t);
            d.threads != 0 && d.cores != 0 ==> Wrap32(d.threads * d.cores) != 0
    ensures var d := DivideCores(t);
            d.threads != 0 && d.cores != 0 && !(t.cores == INT_MIN && t.threads == -1)
            ==> IsInt32(d.threads * d.cores)
  {
    var d := DivideCores(t);
    if d.threads != 0 && d.cores != 0 {
      NonzeroProduct(d.threads, d.cores);
      if t.cores == INT_MIN && t.threads == -1 {
        assert d.cores == INT_MIN;
        assert d.threads * d.cores == -INT_MIN;
      } else {
        TruncDivProduct(t.cores, t.threads);
        assert d.threads * d.cores == TruncDiv(t.cores, t.threads) * t.threads;
      }
    }
  }

  lemma NonzeroProduct(a: int, b: int)
    requires a != 0 && b != 0
    ensures a * b != 0
  {
  }

  /** Eight logical processors, two threads and four cores: one socket. */
  lemma SocketCountExample()
    ensures SocketCount(8, Counts(2, 4)) == Some(1)
  {
    assert TruncDiv(8, 8) == 1;
  }
}
