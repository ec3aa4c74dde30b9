/** The static classifier of the metrics client: one pass over a basic
    block that counts every instruction and, independently of each other,
    the conditional branches, the floating-point instructions, the memory
    reads and the memory writes among them (bb_event in metrics.cc). */
module Classifier {

  /** The host's instruction-decoding capability: instr_is_cbr,
      instr_is_floating, instr_reads_memory and instr_writes_memory.
      Their meaning belongs to the instrumentation host, so the model leaves
      them uninterpreted: any four total predicates over any instruction
      type I. */
  datatype Decoder<!I> = Decoder(
    isCbr: I -> bool,
    isFloating: I -> bool,
    readsMemory: I -> bool,
    writesMemory: I -> bool)

  /** The five counts kept per basic block, and per phase in the totals. */
  datatype Tally = Tally(total: nat, cbr: nat, fp: nat, memR: nat, memW: nat)

  /** The tally of an empty block, and the totals at start-up. */
  const Zero := Tally(0, 0, 0, 0, 0)

  /** Every sub-count counts a subset of the instructions `total` counts. */
  predicate Bounded(t: Tally) {
    t.cbr <= t.total && t.fp <= t.total && t.memR <= t.total && t.memW <= t.total
  }

  /** Field-wise comparison of two tallies. */
  predicate AtMost(a: Tally, b: Tally) {
    a.total <= b.total && a.cbr <= b.cbr && a.fp <= b.fp && a.memR <= b.memR && a.memW <= b.memW
  }

  /** Field-wise sum: what the five `+=` lines of the client do. */
  function Add(a: Tally, b: Tally): (r: Tally)
    ensures Bounded(a) && Bounded(b) ==> Bounded(r)
    ensures r.total == a.total + b.total
  {
    Tally(a.total + b.total, a.cbr + b.cbr, a.fp + b.fp, a.memR + b.memR, a.memW + b.memW)
  }

  lemma AddZero(a: Tally)
    ensures Add(a, Zero) == a
  {
  }

  lemma ZeroAdd(a: Tally)
    ensures Add(Zero, a) == a
  {
  }

  lemma AddAssociative(a: Tally, b: Tally, c: Tally)
    ensures Add(Add(a, b), c) == Add(a, Add(b, c))
  {
  }

  /** The contribution of k executions of a block with tally t: t added k
      times over. */
  function Scale(k: nat, t: Tally): (r: Tally)
    ensures Bounded(t) ==> Bounded(r)
  {
    if k == 0 then Zero else Add(Scale(k - 1, t), t)
  }

  /** k executions contribute exactly k times each field of the tally. */
  lemma {:induction false} ScaleIsProduct(k: nat, t: Tally)
    ensures Scale(k, t) == Tally(k * t.total, k * t.cbr, k * t.fp, k * t.memR, k * t.memW)
  {
    if k > 0 {
      ScaleIsProduct(k - 1, t);
      assert k * t.total == (k - 1) * t.total + t.total;
      assert k * t.cbr == (k - 1) * t.cbr + t.cbr;
      assert k * t.fp == (k - 1) * t.fp + t.fp;
      assert k * t.memR == (k - 1) * t.memR + t.memR;
      assert k * t.memW == (k - 1) * t.memW + t.memW;
    }
  }

  /** 1 when the predicate holds, 0 otherwise. */
  function Indicator(b: bool): nat {
    if b then 1 else 0
  }

  /** The contribution of one instruction to the block tally: one to
      `total`, and one to each field whose predicate it satisfies. */
  function InstrTally<I>(h: Decoder<I>, instr: I): Tally {
    Tally(1, Indicator(h.isCbr(instr)), Indicator(h.isFloating(instr)),
          Indicator(h.readsMemory(instr)), Indicator(h.writesMemory(instr)))
  }

  /** The tally of a block, accumulated in list order as the client's loop
      does. */
  function Classify<I>(h: Decoder<I>, block: seq<I>): (r: Tally)
    ensures r.total == |block|
    ensures Bounded(r)
  {
    if block == [] then Zero
    else Add(Classify(h, block[..|block| - 1]), InstrTally(h, block[|block| - 1]))
  }

  /** Independent reference: the number of instructions of `s` satisfying `p`. */
  function Count<I>(p: I -> bool, s: seq<I>): (n: nat)
    ensures n <= |s|
  {
    if s == [] then 0 else Count(p, s[..|s| - 1]) + Indicator(p(s[|s| - 1]))
  }

  /** Count is |s| exactly when every instruction satisfies `p`, and 0
      exactly when none does. */
  lemma {:induction false} CountExtremes<I>(p: I -> bool, s: seq<I>)
    ensures Count(p, s) == |s| <==> forall i :: 0 <= i < |s| ==> p(s[i])
    ensures Count(p, s) == 0 <==> forall i :: 0 <= i < |s| ==> !p(s[i])
  {
    if s != [] {
      var front := s[..|s| - 1];
      CountExtremes(p, front);
      assert forall i :: 0 <= i < |front| ==> front[i] == s[i];
    }
  }

  /** The single-pass tally agrees, field by field, with counting each
      predicate on its own: the four predicates are tested independently. */
  lemma {:induction false} ClassifyIsPerPredicateCount<I>(h: Decoder<I>, block: seq<I>)
    ensures Classify(h, block).cbr == Count(h.isCbr, block)
    ensures Classify(h, block).fp == Count(h.isFloating, block)
    ensures Classify(h, block).memR == Count(h.readsMemory, block)
    ensures Classify(h, block).memW == Count(h.writesMemory, block)
  {
    if block != [] {
      ClassifyIsPerPredicateCount(h, block[..|block| - 1]);
      CountStep(h.isCbr, block);
      CountStep(h.isFloating, block);
      CountStep(h.readsMemory, block);
      CountStep(h.writesMemory, block);
    }
  }

  lemma CountStep<I>(p: I -> bool, s: seq<I>)
    requires s != []
    ensures Count(p, s) == Count(p, s[..|s| - 1]) + Indicator(p(s[|s| - 1]))
  {
  }

  /** The tally of a concatenation is the sum of the tallies: classifying a
      block is a homomorphism from instruction lists to tallies. */
  lemma {:induction false} ClassifyAppend<I>(h: Decoder<I>, a: seq<I>, b: seq<I>)
    ensures Classify(h, a + b) == Add(Classify(h, a), Classify(h, b))
  {
    if b == [] {
      assert a + b == a;
      AddZero(Classify(h, a));
    } else {
      var front, last := b[..|b| - 1], b[|b| - 1];
      assert (a + b)[..|a + b| - 1] == a + front;
      assert (a + b)[|a + b| - 1] == last;
      ClassifyAppend(h, a, front);
      calc {
        Classify(h, a + b);
        Add(Classify(h, a + front), InstrTally(h, last));
        Add(Add(Classify(h, a), Classify(h, front)), InstrTally(h, last));
        { AddAssociative(Classify(h, a), Classify(h, front), InstrTally(h, last)); }
        Add(Classify(h, a), Add(Classify(h, front), InstrTally(h, last)));
        Add(Classify(h, a), Classify(h, b));
      }
    }
  }

  /** Because one instruction may count toward several fields, the four
      sub-counts together are bounded only by four times the total, and they
      reach that bound (exceeding `total` whenever the block is non-empty)
      when every instruction satisfies all four predicates. */
  lemma SubCountsSum<I>(h: Decoder<I>, block: seq<I>)
    ensures var t := Classify(h, block); t.cbr + t.fp + t.memR + t.memW <= 4 * t.total
    ensures (forall i :: 0 <= i < |block| ==>
               h.isCbr(block[i]) && h.isFloating(block[i]) && h.readsMemory(block[i]) && h.writesMemory(block[i]))
            ==> var t := Classify(h, block); t.cbr + t.fp + t.memR + t.memW == 4 * t.total
  {
    ClassifyIsPerPredicateCount(h, block);
    CountExtremes(h.isCbr, block);
    CountExtremes(h.isFloating, block);
    CountExtremes(h.readsMemory, block);
    CountExtremes(h.writesMemory, block);
  }

  /** Classifying one more instruction of a block adds its contribution. */
  lemma ClassifyStep<I>(h: Decoder<I>, block: seq<I>, i: nat)
    requires i < |block|
    ensures Classify(h, block[..i + 1]) == Add(Classify(h, block[..i]), InstrTally(h, block[i]))
  {
    assert block[..i + 1][..i] == block[..i];
  }

  /** The classification loop of bb_event: five local counters start at
      zero; each instruction bumps `total` and, independently, each counter
      whose predicate it satisfies. */
  method ClassifyBlock<I>(h: Decoder<I>, block: seq<I>) returns (t: Tally)
    ensures t == Classify(h, block)
    ensures t == Tally(|block|, Count(h.isCbr, block), Count(h.isFloating, block),
                       Count(h.readsMemory, block), Count(h.writesMemory, block))
  {
    var total, cbr, fp, memR, memW := 0, 0, 0, 0, 0;
    var i := 0;
    while i < |block|
      invariant 0 <= i <= |block|
      invariant total == Classify(h, block[..i]).total && cbr == Classify(h, block[..i]).cbr
      invariant fp == Classify(h, block[..i]).fp && memR == Classify(h, block[..i]).memR
      invariant memW == Classify(h, block[..i]).memW
    {
      var instr := block[i];
      ClassifyStep(h, block, i);
      total := total + 1;
      if h.isCbr(instr) {
        cbr := cbr + 1;
      }
      if h.isFloating(instr) {
        fp := fp + 1;
      }
      if h.readsMemory(instr) {
        memR := memR + 1;
      }
      if h.writesMemory(instr) {
        memW := memW + 1;
      }
      i := i + 1;
    }
    assert block[..i] == block;
    t := Tally(total, cbr, fp, memR, memW);
    ClassifyIsPerPredicateCount(h, block);
  }
}
