/** The ten process-wide counters of the metrics client (metrics.cc) and
    the two events that update them: discovery of a basic block, which
    classifies it once and adds its tally to the static counters, and
    execution of a block, whose probe adds the memoized tally to the
    dynamic counters. */
module Counters {
  import opened Classifier

  /** The absolute counts the exit event reports for one phase: the five
      counters and the combined memory count. */
  datatype CountReport = CountReport(total: nat, cbr: nat, fp: nat, memR: nat, memW: nat, mem: nat)

  /** The report for one set of totals; the memory count is reads plus
      writes, so an instruction that both reads and writes memory counts
      twice in it. */
  function Report(t: Tally): (r: CountReport)
    ensures r.mem == r.memR + r.memW
    ensures Tally(r.total, r.cbr, r.fp, r.memR, r.memW) == t
    ensures Bounded(t) ==> r.mem <= 2 * r.total
  {
    CountReport(t.total, t.cbr, t.fp, t.memR, t.memW, t.memR + t.memW)
  }

  class Metrics {
    // Static totals: summed once per discovered block.
    var totalCount: nat
    var cbrCount: nat
    var fpCount: nat
    var memRCount: nat
    var memWCount: nat
    // Dynamic totals: summed once per execution of a block.
    var totalCountExec: nat
    var cbrCountExec: nat
    var fpCountExec: nat
    var memRCountExec: nat
    var memWCountExec: nat

    function Static(): Tally
      reads this
    {
      Tally(totalCount, cbrCount, fpCount, memRCount, memWCount)
    }

    function Dynamic(): Tally
      reads this
    {
      Tally(totalCountExec, cbrCountExec, fpCountExec, memRCountExec, memWCountExec)
    }

    /** In both phases every sub-count is at most the total. */
    predicate Valid()
      reads this
    {
      Bounded(Static()) && Bounded(Dynamic())
    }

    /** The counters' zero initialisers; the client's start-up only
        registers its events and creates the lock. */
    constructor ()
      ensures Static() == Zero && Dynamic() == Zero
      ensures Valid()
    {
      totalCount, cbrCount, fpCount, memRCount, memWCount := 0, 0, 0, 0, 0;
      totalCountExec, cbrCountExec, fpCountExec, memRCountExec, memWCountExec := 0, 0, 0, 0, 0;
    }

    /** The basic-block event: classify the block, add its tally to the
        static counters, and return the tally, which the client bakes into
        the clean call inserted at the head of the block. The dynamic
        counters are untouched. */
    method BbEvent<I>(h: Decoder<I>, block: seq<I>) returns (t: Tally)
      modifies this
      ensures t == Classify(h, block)
      ensures Static() == Add(old(Static()), t)
      ensures Dynamic() == old(Dynamic())
      ensures old(Valid()) ==> Valid()
    {
      t := ClassifyBlock(h, block);
      ghost var before := Static();
      totalCount := totalCount + t.total;
      cbrCount := cbrCount + t.cbr;
      fpCount := fpCount + t.fp;
      memRCount := memRCount + t.memR;
      memWCount := memWCount + t.memW;
      assert Bounded(before) ==> Bounded(Static());
    }

    /** The clean call run on every execution of a block, with the block's
        tally as its arguments: under the lock (one atomic step here) it adds
        the tally to the dynamic counters. The static counters are
        untouched. */
    method Callback(t: Tally)
      modifies this
      ensures Dynamic() == Add(old(Dynamic()), t)
      ensures Static() == old(Static())
      ensures old(Valid()) && Bounded(t) ==> Valid()
    {
      totalCountExec := totalCountExec + t.total;
      cbrCountExec := cbrCountExec + t.cbr;
      fpCountExec := fpCountExec + t.fp;
      memRCountExec := memRCountExec + t.memR;
      memWCountExec := memWCountExec + t.memW;
    }

    /** The ten absolute counts the exit event writes, with the combined
        memory count of each phase. */
    method ExitCounts() returns (s: CountReport, d: CountReport)
      ensures s == Report(Static()) && d == Report(Dynamic())
      ensures s.mem == memRCount + memWCount
      ensures d.mem == memRCountExec + memWCountExec
      ensures Valid() ==> s.mem <= 2 * s.total && d.mem <= 2 * d.total
    {
      s := CountReport(totalCount, cbrCount, fpCount, memRCount, memWCount, memRCount + memWCount);
      d := CountReport(totalCountExec, cbrCountExec, fpCountExec, memRCountExec, memWCountExec,
                       memRCountExec + memWCountExec);
    }
  }
}
