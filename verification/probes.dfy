/** The client driven by its host over a whole run: every call of the
    basic-block event is a discovery (the client ignores `for_trace` and
    `translating`, so a block rebuilt for a trace or for address translation
    is discovered, and counted, again), and every execution of a built block
    fires the clean call inserted into it. Each discovery classifies its
    block once and the clean call replays that tally on every execution;
    this module proves that replaying gives the same dynamic totals as
    classifying the block again at every execution would. Events arrive one
    at a time: overlapping basic-block events are not modelled. */
module Probes {
  import opened Classifier
  import opened Counters

  /** One host event: a call of the basic-block event on a block (a repeat
      of an earlier block is a discovery of its own, with its own clean
      call), or one execution of an earlier built block, named by its
      position in discovery order (which stands for the clean call inserted
      into that build). */
  datatype Event<I> = Discover(block: seq<I>) | Execute(unit: nat)

  /** The blocks discovered by a run, in discovery order. */
  function Discovered<I>(events: seq<Event<I>>): (r: seq<seq<I>>)
    ensures |r| <= |events|
  {
    if events == [] then []
    else
      var front := Discovered(events[..|events| - 1]);
      match events[|events| - 1]
      case Discover(b) => front + [b]
      case Execute(_) => front
  }

  /** The host's guarantee: a block is discovered before it first runs. */
  predicate DiscoveredFirst<I>(events: seq<Event<I>>) {
    events == [] ||
    (DiscoveredFirst(events[..|events| - 1]) &&
     match events[|events| - 1]
     case Discover(_) => true
     case Execute(u) => u < |Discovered(events[..|events| - 1])|)
  }

  /** The static totals a run contributes: the tally of the block of each
      basic-block event, once per event. */
  function StaticSum<I>(h: Decoder<I>, events: seq<Event<I>>): (r: Tally)
    ensures Bounded(r)
  {
    if events == [] then Zero
    else
      var front := StaticSum(h, events[..|events| - 1]);
      match events[|events| - 1]
      case Discover(b) => Add(front, Classify(h, b))
      case Execute(_) => front
  }

  /** The dynamic totals a run should contribute: for every execution, the
      tally of the executed block as classifying it afresh would give it. */
  function DynamicSum<I>(h: Decoder<I>, events: seq<Event<I>>): (r: Tally)
    requires DiscoveredFirst(events)
    ensures Bounded(r)
  {
    if events == [] then Zero
    else
      var prefix := events[..|events| - 1];
      var front := DynamicSum(h, prefix);
      match events[|events| - 1]
      case Discover(_) => front
      case Execute(u) => Add(front, Classify(h, Discovered(prefix)[u]))
  }

  /** The host's guarantee holds of every prefix of a run. */
  lemma {:induction false} DiscoveredFirstPrefix<I>(events: seq<Event<I>>, i: nat)
    requires DiscoveredFirst(events)
    requires i <= |events|
    ensures DiscoveredFirst(events[..i])
    decreases |events| - i
  {
    if i < |events| {
      var prefix := events[..|events| - 1];
      DiscoveredFirstPrefix(prefix, i);
      assert prefix[..i] == events[..i];
    } else {
      assert events[..i] == events;
    }
  }

  /** The tallies baked into the clean calls of the given blocks, one per
      block, in discovery order. */
  function Memo<I>(h: Decoder<I>, blocks: seq<seq<I>>): (r: seq<Tally>)
    ensures |r| == |blocks|
  {
    if blocks == [] then [] else Memo(h, blocks[..|blocks| - 1]) + [Classify(h, blocks[|blocks| - 1])]
  }

  /** The clean call of the u-th discovered block carries that block's tally. */
  lemma {:induction false} MemoAt<I>(h: Decoder<I>, blocks: seq<seq<I>>, u: nat)
    requires u < |blocks|
    ensures Memo(h, blocks)[u] == Classify(h, blocks[u])
  {
    if u < |blocks| - 1 {
      MemoAt(h, blocks[..|blocks| - 1], u);
    }
  }

  /** After a discovery, the counters and the memoized tallies still agree
      with the run so far, and the dynamic sum is unchanged. */
  lemma DiscoverKeeps<I>(h: Decoder<I>, done: seq<Event<I>>, b: seq<I>,
                         s0: Tally, before: Tally, probes: seq<Tally>, t: Tally)
    requires DiscoveredFirst(done)
    requires probes == Memo(h, Discovered(done))
    requires before == Add(s0, StaticSum(h, done))
    requires t == Classify(h, b)
    ensures DiscoveredFirst(done + [Discover(b)])
    ensures probes + [t] == Memo(h, Discovered(done + [Discover(b)]))
    ensures Add(before, t) == Add(s0, StaticSum(h, done + [Discover(b)]))
    ensures DynamicSum(h, done + [Discover(b)]) == DynamicSum(h, done)
  {
    var next := done + [Discover(b)];
    assert next[..|next| - 1] == done;
    var d := Discovered(done);
    assert (d + [b])[..|d|] == d;
    AddAssociative(s0, StaticSum(h, done), t);
  }

  /** An execution replays the memoized tally of the executed block, which
      is the tally classifying that block afresh would give; the static sum
      is unchanged. */
  lemma ExecuteKeeps<I>(h: Decoder<I>, done: seq<Event<I>>, u: nat,
                        d0: Tally, before: Tally, probes: seq<Tally>)
    requires DiscoveredFirst(done) && DiscoveredFirst(done + [Execute(u)])
    requires probes == Memo(h, Discovered(done))
    requires before == Add(d0, DynamicSum(h, done))
    ensures u < |probes|
    ensures probes == Memo(h, Discovered(done + [Execute(u)]))
    ensures StaticSum(h, done + [Execute(u)]) == StaticSum(h, done)
    ensures Add(before, probes[u]) == Add(d0, DynamicSum(h, done + [Execute(u)]))
  {
    var next := done + [Execute(u)];
    assert next[..|next| - 1] == done;
    MemoAt(h, Discovered(done), u);
    AddAssociative(d0, DynamicSum(h, done), probes[u]);
  }

  /** Extending a prefix by one element. */
  lemma PrefixStep<T>(s: seq<T>, i: nat)
    requires i < |s|
    ensures s[..i + 1] == s[..i] + [s[i]]
  {
  }

  /** The host delivers one event to the client: a discovery runs the
      basic-block event and keeps the tally it bakes into the block's clean
      call; an execution runs that clean call with the kept tally. The
      counters and the kept tallies go on agreeing with the run so far. */
  method Deliver<I>(m: Metrics, h: Decoder<I>, probes: seq<Tally>, event: Event<I>,
                    ghost done: seq<Event<I>>, ghost s0: Tally, ghost d0: Tally)
    returns (probes': seq<Tally>)
    requires DiscoveredFirst(done) && DiscoveredFirst(done + [event])
    requires probes == Memo(h, Discovered(done))
    requires m.Static() == Add(s0, StaticSum(h, done))
    requires m.Dynamic() == Add(d0, DynamicSum(h, done))
    modifies m
    ensures probes' == Memo(h, Discovered(done + [event]))
    ensures m.Static() == Add(s0, StaticSum(h, done + [event]))
    ensures m.Dynamic() == Add(d0, DynamicSum(h, done + [event]))
  {
    match event {
      case Discover(b) =>
        ghost var before := m.Static();
        var t := m.BbEvent(h, b);
        DiscoverKeeps(h, done, b, s0, before, probes, t);
        probes' := probes + [t];
      case Execute(u) =>
        ExecuteKeeps(h, done, u, d0, m.Dynamic(), probes);
        m.Callback(probes[u]);
        probes' := probes;
    }
  }

  /** The host drives the client through a run. The client keeps, for every
      discovered block, the tally baked into that block's clean call; an
      execution replays it. The counters end up grown by exactly the static
      and dynamic sums of the run, and the "sub-count at most total"
      invariant is kept in both phases. */
  method Run<I>(m: Metrics, h: Decoder<I>, events: seq<Event<I>>)
    requires DiscoveredFirst(events)
    modifies m
    ensures m.Static() == Add(old(m.Static()), StaticSum(h, events))
    ensures m.Dynamic() == Add(old(m.Dynamic()), DynamicSum(h, events))
    ensures old(m.Valid()) ==> m.Valid()
  {
    var probes: seq<Tally> := [];
    var i := 0;
    ghost var done: seq<Event<I>> := [];
    ghost var s0, d0 := m.Static(), m.Dynamic();
    ghost var valid0 := m.Valid();
    assert valid0 == (Bounded(s0) && Bounded(d0));
    AddZero(s0);
    AddZero(d0);
    while i < |events|
      invariant 0 <= i <= |events|
      invariant done == events[..i]
      invariant DiscoveredFirst(done)
      invariant probes == Memo(h, Discovered(done))
      invariant m.Static() == Add(s0, StaticSum(h, done))
      invariant m.Dynamic() == Add(d0, DynamicSum(h, done))
    {
      PrefixStep(events, i);
      DiscoveredFirstPrefix(events, i + 1);
      probes := Deliver(m, h, probes, events[i], done, s0, d0);
      done := done + [events[i]];
      i := i + 1;
    }
    assert done == events;
    assert valid0 ==> Bounded(m.Static()) && Bounded(m.Dynamic());
  }

  /** k executions of the u-th discovered block. */
  function Executions<I>(u: nat, k: nat): (r: seq<Event<I>>)
    ensures |r| == k
  {
    if k == 0 then [] else Executions(u, k - 1) + [Execute(u)]
  }

  /** One execution of a discovered block adds its tally to the dynamic sum
      only. */
  lemma ExecuteOnce<I>(h: Decoder<I>, events: seq<Event<I>>, u: nat, run: seq<Event<I>>)
    requires DiscoveredFirst(events) && u < |Discovered(events)|
    requires run == events + [Execute(u)]
    ensures DiscoveredFirst(run)
    ensures Discovered(run) == Discovered(events)
    ensures StaticSum(h, run) == StaticSum(h, events)
    ensures DynamicSum(h, run) == Add(DynamicSum(h, events), Classify(h, Discovered(events)[u]))
  {
    assert run[..|run| - 1] == events;
  }

  /** k executions of a discovered block grow the dynamic sum by exactly k
      times the block's tally and leave the static sum and the set of
      discovered blocks unchanged. */
  lemma {:induction false} ExecutionsAdd<I>(h: Decoder<I>, events: seq<Event<I>>, u: nat, k: nat)
    requires DiscoveredFirst(events) && u < |Discovered(events)|
    ensures DiscoveredFirst(events + Executions(u, k))
    ensures Discovered(events + Executions(u, k)) == Discovered(events)
    ensures StaticSum(h, events + Executions(u, k)) == StaticSum(h, events)
    ensures DynamicSum(h, events + Executions(u, k))
         == Add(DynamicSum(h, events), Scale(k, Classify(h, Discovered(events)[u])))
  {
    var t := Classify(h, Discovered(events)[u]);
    if k == 0 {
      ExecutionsNone<I>(events, u);
      AddZero(DynamicSum(h, events));
    } else {
      var front := events + Executions(u, k - 1);
      ExecutionsAdd(h, events, u, k - 1);
      ExecutionsSnoc(events, u, k);
      ExecuteOnce(h, front, u, events + Executions(u, k));
      AddScaleStep(DynamicSum(h, events), t, k);
    }
  }

  /** No executions leave a run as it is. */
  lemma ExecutionsNone<I>(events: seq<Event<I>>, u: nat)
    ensures events + Executions(u, 0) == events
  {
  }

  /** k executions are k - 1 executions and one more. */
  lemma ExecutionsSnoc<I>(events: seq<Event<I>>, u: nat, k: nat)
    requires k > 0
    ensures events + Executions(u, k) == (events + Executions(u, k - 1)) + [Execute(u)]
  {
  }

  /** Adding k - 1 copies of a tally and then one more adds k copies. */
  lemma AddScaleStep(d: Tally, t: Tally, k: nat)
    requires k > 0
    ensures Add(Add(d, Scale(k - 1, t)), t) == Add(d, Scale(k, t))
  {
    AddAssociative(d, Scale(k - 1, t), t);
  }

  /** One discovery of a block followed by k executions: the static sum
      is the block's tally, once, and the dynamic sum is k times it. */
  lemma DiscoverThenExecute<I>(h: Decoder<I>, block: seq<I>, k: nat)
    ensures DiscoveredFirst([Discover(block)] + Executions(0, k))
    ensures StaticSum(h, [Discover(block)] + Executions(0, k)) == Classify(h, block)
    ensures DynamicSum(h, [Discover(block)] + Executions(0, k)) == Scale(k, Classify(h, block))
  {
    var first := [Discover(block)];
    assert first[..0] == [];
    assert Discovered(first) == [block];
    ZeroAdd(Classify(h, block));
    ExecutionsAdd(h, first, 0, k);
    ZeroAdd(Scale(k, Classify(h, block)));
  }

  /** The discovery indices of the blocks that have executed at least once. */
  function Executed<I>(events: seq<Event<I>>): (r: set<nat>)
  {
    if events == [] then {}
    else
      var front := Executed(events[..|events| - 1]);
      match events[|events| - 1]
      case Discover(_) => front
      case Execute(u) => front + {u}
  }

  /** The tallies of the blocks, among `blocks`, whose index is not in
      `executed`, summed. */
  function Unexecuted<I>(h: Decoder<I>, blocks: seq<seq<I>>, executed: set<nat>): (r: Tally)
    ensures Bounded(r)
  {
    if blocks == [] then Zero
    else
      var n := |blocks| - 1;
      Add(Unexecuted(h, blocks[..n], executed), if n in executed then Zero else Classify(h, blocks[n]))
  }

  /** Marking an index beyond the blocks as executed changes nothing. */
  lemma {:induction false} UnexecutedBeyond<I>(h: Decoder<I>, blocks: seq<seq<I>>, executed: set<nat>, u: nat)
    requires u >= |blocks|
    ensures Unexecuted(h, blocks, executed + {u}) == Unexecuted(h, blocks, executed)
  {
    if blocks != [] {
      UnexecutedBeyond(h, blocks[..|blocks| - 1], executed, u);
    }
  }

  /** Marking block u as executed removes at most its tally from the sum. */
  lemma {:induction false} UnexecutedMark<I>(h: Decoder<I>, blocks: seq<seq<I>>, executed: set<nat>, u: nat)
    requires u < |blocks|
    ensures AtMost(Unexecuted(h, blocks, executed),
                   Add(Unexecuted(h, blocks, executed + {u}), Classify(h, blocks[u])))
  {
    var n := |blocks| - 1;
    var front := blocks[..n];
    var last := if n in executed then Zero else Classify(h, blocks[n]);
    var last' := if n in executed + {u} then Zero else Classify(h, blocks[n]);
    assert Unexecuted(h, blocks, executed) == Add(Unexecuted(h, front, executed), last);
    assert Unexecuted(h, blocks, executed + {u}) == Add(Unexecuted(h, front, executed + {u}), last');
    if u == n {
      UnexecutedBeyond(h, front, executed, u);
    } else {
      UnexecutedMark(h, front, executed, u);
      assert front[u] == blocks[u];
    }
  }

  /** When every block has executed, nothing is left unexecuted. */
  lemma {:induction false} UnexecutedNone<I>(h: Decoder<I>, blocks: seq<seq<I>>, executed: set<nat>)
    requires forall u :: 0 <= u < |blocks| ==> u in executed
    ensures Unexecuted(h, blocks, executed) == Zero
  {
    if blocks != [] {
      UnexecutedNone(h, blocks[..|blocks| - 1], executed);
    }
  }

  /** Over any run, the static totals are covered by the dynamic totals plus
      the tallies of the discovered blocks that have not run yet; only
      discovered blocks run. */
  lemma {:induction false} StaticCovered<I>(h: Decoder<I>, events: seq<Event<I>>)
    requires DiscoveredFirst(events)
    ensures forall u :: u in Executed(events) ==> u < |Discovered(events)|
    ensures AtMost(StaticSum(h, events),
                   Add(DynamicSum(h, events), Unexecuted(h, Discovered(events), Executed(events))))
  {
    if events != [] {
      var front := events[..|events| - 1];
      StaticCovered(h, front);
      var d, e := Discovered(front), Executed(front);
      match events[|events| - 1] {
        case Discover(b) =>
          assert (d + [b])[..|d|] == d;
          assert |d| !in e;
        case Execute(u) =>
          UnexecutedMark(h, d, e, u);
      }
    }
  }

  /** Once every discovered block has executed at least once, each dynamic
      total is at least the matching static total. */
  lemma DynamicCoversStatic<I>(h: Decoder<I>, events: seq<Event<I>>)
    requires DiscoveredFirst(events)
    requires forall u :: 0 <= u < |Discovered(events)| ==> u in Executed(events)
    ensures AtMost(StaticSum(h, events), DynamicSum(h, events))
  {
    StaticCovered(h, events);
    UnexecutedNone(h, Discovered(events), Executed(events));
    AddZero(DynamicSum(h, events));
  }
}
