/** Nothing the main thread asked for is stuck: from every state of the channel the remaining steps of
    the audio thread, with the flush of the coalesced snapshot, bring every command in. */
module ChannelProgress {
  import opened Options
  import opened Payloads
  import opened SwapDomain
  import opened Channel
  import opened ChannelMeaning
  import opened FinalState

  /** Nothing outstanding, nothing uncounted, and no callback running. */
  predicate AtRest(c: Chan) {
    c.active && !c.rt.inside && c.main.uncounted == 0 && Outstanding(c) == []
  }

  /** A step towards rest. */
  function Next(c: Chan): Action {
    if c.main.uncounted > 0 then Count
    else if !c.active then ActivateOk
    else if c.rt.recovered != [] then Replay
    else if c.rt.inside then InCallback(c)
    else if Waiting(c) != [] then BeginCallback
    else Flush
  }

  /** Inside a callback: the candidate in hand first, and the end when nothing more can be done. */
  function InCallback(c: Chan): Action {
    if !c.rt.slot.Empty? then
      if c.rt.budget > 0 then InstallSlot else if c.rt.slot.InHand? then Park else EndCallback
    else if c.ring == [] then EndCallback
    else if IsStructural(c.ring[0]) then PopToHand
    else PopLight
  }

  /** Steps until a waiting command is installed, or the callback is over. */
  function Rank(c: Chan): nat {
    if Waiting(c) == [] then (if c.rt.inside then 1 else 0)
    else if !c.rt.inside then 2
    else if c.rt.budget > 0 then (if c.rt.slot.Empty? then 1 else 0)
    else if c.rt.slot.Parked? then 3
    else if c.rt.slot.InHand? then 4
    else 5
  }

  function Pending(c: Chan): nat { if c.main.pending.Some? then 1 else 0 }

  function Inactive(c: Chan): nat { if c.active then 0 else 1 }

  ghost predicate Closer(c: Chan, d: Chan) {
    Inactive(d) <= Inactive(c)
    && (Inactive(d) == Inactive(c) ==>
          |d.rt.recovered| <= |c.rt.recovered|
          && (|d.rt.recovered| == |c.rt.recovered| ==>
                Pending(d) <= Pending(c)
                && (Pending(d) == Pending(c) ==>
                      |Waiting(d)| <= |Waiting(c)|
                      && (|Waiting(d)| == |Waiting(c)| ==>
                            d.main.uncounted <= c.main.uncounted
                            && (d.main.uncounted == c.main.uncounted ==> Rank(d) < Rank(c))))))
  }

  /** What the steps towards rest leave alone, and what they settle. */
  ghost predicate Keeps(c: Chan, d: Chan) {
    d.capacity == c.capacity && (c.active ==> d.active)
    && c.hist.fates <= d.hist.fates
    && forall i :: |c.hist.fates| <= i < |d.hist.fates| ==> d.hist.fates[i] == Installed
  }

  lemma NextIsCloser(c: Chan)
    requires AckInv(c) && c.capacity > 0 && !AtRest(c)
    ensures Enabled(c, Next(c)) && Closer(c, Apply(c, Next(c))) && Keeps(c, Apply(c, Next(c)))
    ensures Asked(Next(c)) == [] && (c.active ==> CommandStep(c, Next(c)))
  {
    hide Enabled, Apply, Closer, Keeps, AckInv, InCallback, Waiting;
    if c.main.uncounted > 0 { CountCloser(c); }
    else if !c.active { ActivateCloser(c); }
    else if c.rt.recovered != [] { ReplayCloser(c); }
    else if c.rt.inside { CallbackCloser(c); }
    else if Waiting(c) != [] { BeginCloser(c); }
    else { FlushCloser(c); }
  }

  lemma CountCloser(c: Chan)
    requires c.main.uncounted > 0
    ensures Enabled(c, Count) && Closer(c, Apply(c, Count)) && Keeps(c, Apply(c, Count))
  {
    assert Waiting(Apply(c, Count)) == Waiting(c);
  }

  lemma ActivateCloser(c: Chan)
    requires !c.active && c.main.uncounted == 0
    ensures Enabled(c, ActivateOk) && Closer(c, Apply(c, ActivateOk)) && Keeps(c, Apply(c, ActivateOk))
  {}

  lemma ReplayCloser(c: Chan)
    requires AckInv(c) && c.active && c.rt.recovered != []
    ensures Enabled(c, Replay) && Closer(c, Apply(c, Replay)) && Keeps(c, Apply(c, Replay))
  {
    hide InstallAll;
  }

  lemma BeginCloser(c: Chan)
    requires c.active && !c.rt.inside && c.rt.recovered == [] && Waiting(c) != []
    ensures Enabled(c, BeginCallback) && Closer(c, Apply(c, BeginCallback)) && Keeps(c, Apply(c, BeginCallback))
  {
    assert Waiting(Apply(c, BeginCallback)) == Waiting(c);
  }

  lemma FlushCloser(c: Chan)
    requires AckInv(c) && c.active && !c.rt.inside && c.main.uncounted == 0 && c.rt.recovered == []
    requires Waiting(c) == [] && c.capacity > 0 && !AtRest(c)
    ensures Enabled(c, Flush) && Closer(c, Apply(c, Flush)) && Keeps(c, Apply(c, Flush))
  {}

  lemma CallbackCloser(c: Chan)
    requires AckInv(c) && c.rt.inside
    ensures Enabled(c, InCallback(c)) && Closer(c, Apply(c, InCallback(c))) && Keeps(c, Apply(c, InCallback(c)))
    ensures CommandKind(InCallback(c)) && !InCallback(c).Supersede? && Asked(InCallback(c)) == []
  {
    hide Apply, Closer, Keeps;
    if !c.rt.slot.Empty? {
      if c.rt.budget > 0 { SlotCloser(c); } else if c.rt.slot.InHand? { ParkCloser(c); } else { EndCloser(c); }
    } else if c.ring == [] { EndCloser(c); }
    else { PopCloser(c); }
  }

  lemma SlotCloser(c: Chan)
    requires c.rt.inside && !c.rt.slot.Empty? && c.rt.budget > 0
    ensures Closer(c, Apply(c, InstallSlot)) && Keeps(c, Apply(c, InstallSlot))
  {
    hide Install;
    ResolvedWaiting(c, InstallSlot);
  }

  lemma ParkCloser(c: Chan)
    requires c.rt.inside && c.rt.slot.InHand? && c.rt.budget == 0
    ensures Closer(c, Apply(c, Park)) && Keeps(c, Apply(c, Park))
  {
    assert Waiting(Apply(c, Park)) == Waiting(c);
  }

  lemma EndCloser(c: Chan)
    requires AckInv(c) && c.rt.inside && !c.rt.slot.InHand? && (Waiting(c) == [] || (c.rt.slot.Parked? && c.rt.budget == 0))
    ensures Closer(c, Apply(c, EndCallback)) && Keeps(c, Apply(c, EndCallback))
  {
    hide FinishCallback;
    assert Waiting(Apply(c, EndCallback)) == Waiting(c);
  }

  lemma PopCloser(c: Chan)
    requires c.rt.inside && c.rt.slot.Empty? && c.ring != []
    ensures var a := if IsStructural(c.ring[0]) then PopToHand else PopLight;
            Closer(c, Apply(c, a)) && Keeps(c, Apply(c, a))
  {
    hide Install;
    PopKeepsOrder(c);
    if !IsStructural(c.ring[0]) { ResolvedWaiting(c, PopLight); }
  }

  lemma KeepsChain(c: Chan, d: Chan, e: Chan)
    requires Keeps(c, d) && Keeps(d, e)
    ensures Keeps(c, e)
  {}

  /** From every state of the channel, active or not, some run brings it to rest: whatever waits,
      is parked, was recovered or is still coalesced is installed, and nothing is dropped or superseded
      on the way.  From an active state it is a run of the command channel that asks for nothing
      new. */
  lemma {:induction false} ComesToRest(c: Chan) returns (acts: seq<Action>)
    requires AckInv(c) && c.capacity > 0
    ensures Runs(c, acts) && AtRest(After(c, acts)) && AckInv(After(c, acts)) && Keeps(c, After(c, acts))
    ensures AskedAll(acts) == [] && (c.active ==> CommandRun(c, acts))
    decreases Inactive(c), |c.rt.recovered|, Pending(c), |Waiting(c)|, c.main.uncounted, Rank(c)
  {
    hide Enabled, Apply, Keeps, AckInv, AtRest, Next, Rank, Waiting, CommandStep, Asked;
    acts := [];
    if !AtRest(c) {
      var a := Next(c);
      NextIsCloser(c);
      AckStep(c, a);
      StillActive(c, Apply(c, a));
      var rest := ComesToRest(Apply(c, a));
      KeepsChain(c, Apply(c, a), After(Apply(c, a), rest));
      acts := [a] + rest;
      assert acts[0] == a && acts[1..] == rest;
    } else {
      Unmoved(c);
    }
  }

  lemma StillActive(c: Chan, d: Chan)
    requires Keeps(c, d)
    ensures (c.active ==> d.active) && d.capacity == c.capacity
  {}

  lemma Unmoved(c: Chan)
    ensures Keeps(c, c)
  {}

  /** At rest every command is acknowledged. */
  lemma RestIsAcknowledged(c: Chan)
    requires AckInv(c) && AtRest(c)
    ensures c.cold.lastAck == c.main.nextSeq == |c.hist.delivered| == |c.hist.fates|
    ensures c.ring == [] && c.rt.slot.Empty? && c.main.pending.None? && c.rt.recovered == []
  {
    assert Outstanding(c) == c.rt.recovered + (Waiting(c) + Coalesced(c));
  }

  /** Every schedule can be finished, and where it then ends is decided by what was asked for: for each
      qualified run from rest there is a continuation, asking for nothing more, at whose end
      everything is acknowledged and the last model, impulse response, engines, parameters and
      restore of the run are the ones installed. */
  lemma LastWritesAreReached(c: Chan, acts: seq<Action>) returns (more: seq<Action>)
    requires AckInv(c) && LatencyConsistent(c.dsp) && c.capacity > 0 && Outstanding(c) == []
    requires Runs(c, acts) && CommandRun(c, acts) && After(c, acts).active
    ensures Runs(c, acts + more) && AtRest(After(c, acts + more))
    ensures IsLastWrites(c.dsp, AskedAll(acts), After(c, acts + more).dsp)
    ensures After(c, acts + more).cold.lastAck == |After(c, acts + more).hist.delivered|
  {
    hide AckInv, Enabled, Apply, CommandStep, IsLastWrites, LatencyConsistent, Asked;
    AckRun(c, acts);
    CapacityStays(c, acts);
    more := ComesToRest(After(c, acts));
    RunsConcat(c, acts, more);
    CommandRunsConcat(c, acts, more);
    AskedConcat(acts, more);
    assert AskedAll(acts) + [] == AskedAll(acts);
    DrainedRunEndsAtLastWrites(c, acts + more);
    RestIsAcknowledged(After(c, acts + more));
  }

  lemma {:induction false} CapacityStays(c: Chan, acts: seq<Action>)
    requires Runs(c, acts)
    ensures After(c, acts).capacity == c.capacity
    decreases |acts|
  {
    if acts != [] { CapacityStays(Apply(c, acts[0]), acts[1..]); }
  }

  lemma {:induction false} CommandRunsConcat(c: Chan, a: seq<Action>, b: seq<Action>)
    requires Runs(c, a) && Runs(After(c, a), b) && CommandRun(c, a) && CommandRun(After(c, a), b)
    requires Runs(c, a + b)
    ensures CommandRun(c, a + b)
    decreases |a|
  {
    hide Enabled, Apply, CommandStep;
    if a == [] {
      assert a + b == b;
    } else {
      assert (a + b)[0] == a[0] && (a + b)[1..] == a[1..] + b;
      CommandRunsConcat(Apply(c, a[0]), a[1..], b);
    }
  }

  lemma {:induction false} AskedConcat(a: seq<Action>, b: seq<Action>)
    ensures AskedAll(a + b) == AskedAll(a) + AskedAll(b)
    decreases |a|
  {
    hide Asked;
    if a == [] {
      assert a + b == b;
    } else {
      assert (a + b)[0] == a[0] && (a + b)[1..] == a[1..] + b;
      AskedConcat(a[1..], b);
    }
  }

  // ---------- the other ring ----------

  /** The next rebuild comes in within one callback: installed over the left model when that is of
      the generation it was built for, retired otherwise. */
  lemma RebuildComesIn(c: Chan)
    requires c.rt.inside && c.rt.budget > 0 && c.slim.slot.None? && c.slim.ring != []
    ensures var r := c.slim.ring[0];
            var acts := [SlimPop, if r.generation == c.dsp.chain.generation then SlimInstall else SlimStale];
            Runs(c, acts)
            && var d := After(c, acts);
               d.slim.ring == c.slim.ring[1..] && d.slim.slot.None?
               && d.dsp.chain.generation == c.dsp.chain.generation
               && d.dsp.chain.modelL == (if r.generation == c.dsp.chain.generation then Some(r.model) else c.dsp.chain.modelL)
               && d.rt.budget == (if r.generation == c.dsp.chain.generation then c.rt.budget - 1 else c.rt.budget)
  {
    TwoSteps(c, SlimPop, if c.slim.ring[0].generation == c.dsp.chain.generation then SlimInstall else SlimStale);
    hide Runs, After;
  }
}
