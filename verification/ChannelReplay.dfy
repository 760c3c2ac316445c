/** What becomes of the commands that failed activations take out of the ring: each of them is
    at every moment staged, moved in for replay, replayed or lost, exactly once; which runs lose
    a restore; and when the replay keeps the order in which the commands were sent. */
module ChannelReplay {
  import opened Options
  import opened Payloads
  import opened SwapDomain
  import opened Channel
  import Rollback

  // ---------- whereabouts ----------

  /** How often each position occurs among the whereabouts. */
  function Positions(w: Whereabouts): multiset<nat> {
    multiset(w.staged) + multiset(w.recovered) + multiset(w.replayed) + multiset(w.lost)
  }

  function Where(c: Chan): multiset<nat> { Positions(c.hist.at) }

  /** A command other than a model that a rollback took out of the ring. */
  predicate Replayable(c: Chan, i: nat) {
    i < |c.hist.fates| && i < |c.hist.delivered| && c.hist.fates[i].Recovered? && !c.hist.delivered[i].Load?
  }

  /** The commands `ps` are those at the positions `at`. */
  predicate Matches(ps: seq<Payload>, at: seq<nat>, delivered: seq<Payload>) {
    |ps| == |at| && forall k :: 0 <= k < |at| ==> at[k] < |delivered| && ps[k] == delivered[at[k]]
  }

  /** Nothing awaits replay while the plugin is inactive. */
  predicate ReplayOnlyActive(c: Chan) { c.active || c.rt.recovered == [] }

  ghost predicate OnceEach(c: Chan) {
    forall i: nat :: Where(c)[i] == if Replayable(c, i) then 1 else 0
  }

  ghost predicate WhereInv(c: Chan) {
    Matches(c.cold.staged, c.hist.at.staged, c.hist.delivered)
    && Matches(c.rt.recovered, c.hist.at.recovered, c.hist.delivered)
    && ReplayOnlyActive(c) && OnceEach(c)
  }

  lemma MatchesLonger(ps: seq<Payload>, at: seq<nat>, delivered: seq<Payload>, delivered': seq<Payload>)
    requires Matches(ps, at, delivered) && delivered <= delivered'
    ensures Matches(ps, at, delivered')
  {}

  lemma OnlyRollbackRecovers(c: Chan, a: Action)
    requires Enabled(c, a) && !a.ActivateFail?
    ensures var fates := Apply(c, a).hist.fates;
            forall i :: |c.hist.fates| <= i < |fates| ==> !fates[i].Recovered?
  {
    hide Install, InstallAll, FinishCallback, Discard, Adjusted, Freed;
    match a {
      case Deactivate => case PopLight => case InstallSlot => case Supersede => case _ =>
    }
  }

  lemma MovesKeepPositions(w: Whereabouts)
    ensures Positions(w.(recovered := [], replayed := w.replayed + w.recovered)) == Positions(w)
    ensures Positions(w.(recovered := [], lost := w.lost + w.recovered)) == Positions(w)
    ensures w.recovered == [] ==> Positions(w.(recovered := w.staged, staged := [])) == Positions(w)
  {
    assert multiset(w.replayed + w.recovered) == multiset(w.replayed) + multiset(w.recovered);
    assert multiset(w.lost + w.recovered) == multiset(w.lost) + multiset(w.recovered);
  }

  /** Where the staged commands and the commands to replay are after a step. */
  predicate StagingAfter(c: Chan, a: Action, d: Chan) {
    (d.cold.staged, d.hist.at.staged) == (if a.ActivateOk? then ([], []) else (c.cold.staged, c.hist.at.staged))
    && (d.rt.recovered, d.hist.at.recovered)
       == (if a.ActivateOk? then (c.cold.staged, c.hist.at.staged)
           else if a.Replay? || a.Deactivate? then ([], [])
           else (c.rt.recovered, c.hist.at.recovered))
  }

  /** What a step other than a rollback does to the staging areas. */
  lemma StagingMoves(c: Chan, a: Action)
    requires AckInv(c) && ReplayOnlyActive(c) && Enabled(c, a) && !a.ActivateFail?
    requires |c.rt.recovered| == |c.hist.at.recovered|
    ensures Where(Apply(c, a)) == Where(c) && ReplayOnlyActive(Apply(c, a)) && StagingAfter(c, a, Apply(c, a))
  {
    hide Positions, Apply, Enabled, AckInv;
    MovesKeepPositions(c.hist.at);
    if a.ActivateOk? || a.Replay? || a.Deactivate? {
      BoundaryStaging(c, a);
    } else {
      OtherStaging(c, a);
    }
  }

  lemma BoundaryStaging(c: Chan, a: Action)
    requires ReplayOnlyActive(c) && Enabled(c, a) && (a.ActivateOk? || a.Replay? || a.Deactivate?)
    requires |c.rt.recovered| == |c.hist.at.recovered|
    ensures var d := Apply(c, a);
            StagingAfter(c, a, d) && ReplayOnlyActive(d)
            && d.hist.at == (if a.ActivateOk? then c.hist.at.(recovered := c.hist.at.staged, staged := [])
                             else if a.Replay? then
                               c.hist.at.(recovered := [], replayed := c.hist.at.replayed + c.hist.at.recovered)
                             else c.hist.at.(recovered := [], lost := c.hist.at.lost + c.hist.at.recovered))
            && (a.ActivateOk? ==> c.hist.at.recovered == [])
  {
    hide InstallAll, ItemsOf, SlotItems, RebuildItems;
  }

  lemma OtherStaging(c: Chan, a: Action)
    requires AckInv(c) && Enabled(c, a)
    requires !a.ActivateFail? && !a.ActivateOk? && !a.Replay? && !a.Deactivate?
    ensures var d := Apply(c, a);
            d.hist.at == c.hist.at && d.cold.staged == c.cold.staged && d.rt.recovered == c.rt.recovered
            && d.active == c.active
  {
    hide Install, FinishCallback, Discard, Adjusted;
  }

  lemma NothingMatches(delivered: seq<Payload>)
    ensures Matches([], [], delivered)
  {}

  lemma WhereStep(c: Chan, a: Action)
    requires AckInv(c) && WhereInv(c) && Enabled(c, a)
    ensures WhereInv(Apply(c, a))
  {
    hide Apply, Enabled, AckInv, StagingAfter, OnceEach, Matches, Where;
    if a.ActivateFail? {
      RollbackStages(c);
    } else {
      var d := Apply(c, a);
      AckIsMonotone(c, a);
      FewerFates(c);
      SameLength(c.rt.recovered, c.hist.at.recovered, c.hist.delivered);
      StagingMoves(c, a);
      OnlyRollbackRecovers(c, a);
      StagedMatch(c, a, d);
      OnceStays(c, d);
    }
  }

  lemma SameLength(ps: seq<Payload>, at: seq<nat>, delivered: seq<Payload>)
    requires Matches(ps, at, delivered)
    ensures |ps| == |at|
  {}

  lemma StagedMatch(c: Chan, a: Action, d: Chan)
    requires StagingAfter(c, a, d) && c.hist.delivered <= d.hist.delivered
    requires Matches(c.cold.staged, c.hist.at.staged, c.hist.delivered)
    requires Matches(c.rt.recovered, c.hist.at.recovered, c.hist.delivered)
    ensures Matches(d.cold.staged, d.hist.at.staged, d.hist.delivered)
    ensures Matches(d.rt.recovered, d.hist.at.recovered, d.hist.delivered)
  {
    hide Matches;
    MatchesLonger(c.cold.staged, c.hist.at.staged, c.hist.delivered, d.hist.delivered);
    MatchesLonger(c.rt.recovered, c.hist.at.recovered, c.hist.delivered, d.hist.delivered);
    NothingMatches(d.hist.delivered);
  }

  lemma OnceStays(c: Chan, d: Chan)
    requires OnceEach(c) && Where(d) == Where(c) && |c.hist.fates| <= |c.hist.delivered|
    requires c.hist.fates <= d.hist.fates && c.hist.delivered <= d.hist.delivered
    requires forall i :: |c.hist.fates| <= i < |d.hist.fates| ==> !d.hist.fates[i].Recovered?
    ensures OnceEach(d)
  {
    hide Where;
    forall i: nat ensures Where(d)[i] == if Replayable(d, i) then 1 else 0 {
      assert Where(c)[i] == if Replayable(c, i) then 1 else 0;
      assert Replayable(d, i) <==> Replayable(c, i);
    }
  }

  // ---------- a rollback ----------

  lemma RingIsUnsettled(c: Chan)
    requires AckInv(c) && Enabled(c, ActivateFail)
    ensures |c.hist.fates| <= |c.hist.delivered| && c.hist.delivered[|c.hist.fates|..] == c.ring
  {
    assert Waiting(c) == c.ring;
  }

  /** The batch a rollback stages holds each position of another command than a model once. */
  lemma {:induction false} BatchOnce(ring: seq<Payload>, start: nat, i: nat)
    ensures multiset(Shifted(Rollback.NonModelPositions(ring), start))[i]
            == if start <= i < start + |ring| && !ring[i - start].Load? then 1 else 0
  {
    if ring != [] {
      var n := |ring| - 1;
      BatchOnce(ring[..n], start, i);
      var at := Rollback.NonModelPositions(ring[..n]);
      if ring[n].Load? {
        assert Rollback.NonModelPositions(ring) == at;
      } else {
        assert Shifted(Rollback.NonModelPositions(ring), start) == Shifted(at, start) + [n + start];
      }
    }
  }

  lemma BatchMatches(c: Chan)
    requires AckInv(c) && Enabled(c, ActivateFail)
    ensures Matches(Rollback.NonModels(c.ring), BatchAt(c), c.hist.delivered)
  {
    hide Rollback.NonModels, Rollback.NonModelPositions, AckInv;
    Rollback.StagedInRingOrder(c.ring);
    RingIsUnsettled(c);
    var n, at := |c.hist.fates|, Rollback.NonModelPositions(c.ring);
    forall k | 0 <= k < |BatchAt(c)| ensures Rollback.NonModels(c.ring)[k] == c.hist.delivered[BatchAt(c)[k]] {
      assert c.hist.delivered[n..][at[k]] == c.hist.delivered[n + at[k]];
    }
  }

  /** The fields a rollback touches. */
  lemma RollbackFields(c: Chan)
    requires AckInv(c) && Enabled(c, ActivateFail)
    ensures var d := Apply(c, ActivateFail);
            d.ring == [] && c.rt.slot.Empty? && d.rt.slot.Empty? && d.rt.recovered == c.rt.recovered
            && d.active == c.active && d.capacity == c.capacity && d.main == c.main && d.dsp == c.dsp && d.slim == c.slim
            && d.cold.lastAck == c.cold.lastAck + |c.ring| == d.rt.processed
            && d.cold.staged == Rollback.NonModels(c.ring) + c.cold.staged
            && d.cold.pendingModel == Rollback.SlotAfter(c.cold.pendingModel, c.ring)
            && d.cold.dropped == c.cold.dropped + Freed(c)
            && d.hist == c.hist.(fates := c.hist.fates + Repeat(Recovered, |c.ring|),
                                 at := c.hist.at.(staged := BatchAt(c) + c.hist.at.staged))
  {
    hide Freed, Rollback.NonModels, Rollback.SlotAfter, Rollback.NonModelPositions;
  }

  lemma RollbackStages(c: Chan)
    requires AckInv(c) && WhereInv(c) && Enabled(c, ActivateFail)
    ensures WhereInv(Apply(c, ActivateFail))
  {
    hide Apply, Enabled, AckInv, BatchAt, Rollback.NonModels, Rollback.NonModelPositions, Rollback.SlotAfter, Freed;
    RollbackFields(c);
    BatchMatches(c);
    var d := Apply(c, ActivateFail);
    forall i: nat ensures Where(d)[i] == if Replayable(d, i) then 1 else 0 { RollbackOnce(c, i); }
    MatchesBoth(Rollback.NonModels(c.ring), BatchAt(c), c.cold.staged, c.hist.at.staged, c.hist.delivered);
    hide Matches, Where, Replayable;
  }

  lemma MatchesBoth(ps: seq<Payload>, at: seq<nat>, qs: seq<Payload>, bt: seq<nat>, delivered: seq<Payload>)
    requires Matches(ps, at, delivered) && Matches(qs, bt, delivered)
    ensures Matches(ps + qs, at + bt, delivered)
  {}

  lemma RollbackOnce(c: Chan, i: nat)
    requires AckInv(c) && OnceEach(c) && Enabled(c, ActivateFail)
    ensures var d := Apply(c, ActivateFail); Where(d)[i] == if Replayable(d, i) then 1 else 0
  {
    hide Apply, Enabled, AckInv, Rollback.NonModels, Rollback.NonModelPositions, Rollback.SlotAfter, Freed;
    RollbackFields(c);
    RingIsUnsettled(c);
    BatchOnce(c.ring, |c.hist.fates|, i);
    var d, n := Apply(c, ActivateFail), |c.hist.fates|;
    assert multiset(BatchAt(c) + c.hist.at.staged) == multiset(BatchAt(c)) + multiset(c.hist.at.staged);
    assert Where(d)[i] == multiset(BatchAt(c))[i] + Where(c)[i];
    assert Where(c)[i] == if Replayable(c, i) then 1 else 0;
    if n <= i < n + |c.ring| { assert c.hist.delivered[n..][i - n] == c.hist.delivered[i]; }
  }

  lemma {:induction false} WhereRun(c: Chan, acts: seq<Action>)
    requires AckInv(c) && FatesInv(c) && WhereInv(c) && Runs(c, acts)
    ensures AckInv(After(c, acts)) && FatesInv(After(c, acts)) && WhereInv(After(c, acts))
    decreases |acts|
  {
    hide AckInv, FatesInv, WhereInv, Enabled, Apply;
    if acts != [] {
      AckStep(c, acts[0]);
      FatesStep(c, acts[0]);
      WhereStep(c, acts[0]);
      WhereRun(Apply(c, acts[0]), acts[1..]);
    }
  }

  lemma StartsRight(c0: Chan)
    requires Initial(c0)
    ensures AckInv(c0) && FatesInv(c0) && WhereInv(c0)
  {}

  /** In every reachable state each recovered command other than a model is staged, moved in,
      replayed or lost, exactly once, and nothing else is; the staging areas hold exactly the
      commands at those positions. */
  lemma EveryRecoveredCommandOnce(c0: Chan, acts: seq<Action>)
    requires Initial(c0) && Runs(c0, acts)
    ensures var c := After(c0, acts);
            (forall i: nat :: Where(c)[i] == if Replayable(c, i) then 1 else 0)
            && Matches(c.cold.staged, c.hist.at.staged, c.hist.delivered)
            && Matches(c.rt.recovered, c.hist.at.recovered, c.hist.delivered)
  {
    StartsRight(c0);
    WhereRun(c0, acts);
  }

  // ---------- restores ----------

  /** The restore at `i` was installed, or recovered and then replayed or still to be replayed. */
  predicate RestoreSafe(c: Chan, i: nat) {
    i < |c.hist.fates|
    && match c.hist.fates[i]
       case Installed => Where(c)[i] == 0
       case Recovered => Where(c)[i] == 1 && i !in c.hist.at.lost
       case _ => false
  }

  predicate RestoresKept(c: Chan) {
    |c.hist.fates| <= |c.hist.delivered|
    && forall i :: 0 <= i < |c.hist.fates| && c.hist.delivered[i].Restore? ==> RestoreSafe(c, i)
  }

  /** A deactivation that finds a restore parked, or one waiting for its replay. */
  predicate LosesAt(c: Chan, a: Action) {
    a.Deactivate?
    && ((c.rt.slot.Parked? && c.rt.slot.p.Restore?)
        || exists k :: 0 <= k < |c.rt.recovered| && c.rt.recovered[k].Restore?)
  }

  predicate LosesRestore(c: Chan, acts: seq<Action>)
    requires Runs(c, acts)
    decreases |acts|
  {
    acts != [] && (LosesAt(c, acts[0]) || LosesRestore(Apply(c, acts[0]), acts[1..]))
  }

  /** The restore at `i` is gone. */
  predicate RestoreLost(c: Chan, i: nat) {
    i < |c.hist.fates| && i < |c.hist.delivered| && c.hist.delivered[i].Restore?
    && (c.hist.fates[i].DroppedParked? || i in c.hist.at.lost)
  }

  ghost predicate NothingLost(c: Chan) { forall i: nat :: !RestoreLost(c, i) }

  lemma KeptUnlessLost(c: Chan)
    requires AckInv(c) && FatesInv(c) && WhereInv(c)
    ensures RestoresKept(c) <==> NothingLost(c)
  {
    FewerFates(c);
    hide AckInv, Positions, Matches;
    forall i: nat | i < |c.hist.fates| && c.hist.delivered[i].Restore?
      ensures RestoreSafe(c, i) <==> !RestoreLost(c, i)
    {
      assert Where(c)[i] == if Replayable(c, i) then 1 else 0;
      LostIsSomewhere(c, i);
      NotSuperseded(c, i);
    }
    forall i: nat | RestoresKept(c) ensures !RestoreLost(c, i) {
      if i < |c.hist.fates| && c.hist.delivered[i].Restore? { assert RestoreSafe(c, i); }
    }
  }

  /** A restore is never superseded. */
  lemma NotSuperseded(c: Chan, i: nat)
    requires FatesInv(c) && i < |c.hist.fates| && c.hist.delivered[i].Restore?
    ensures c.hist.fates[i] != Superseded
  {
    assert CoalesceKey(c.hist.delivered[i]).None?;
    assert c.hist.fates[i] == Superseded ==> SameKey(c.hist.delivered[i], c.hist.delivered[i + 1]);
  }

  lemma FewerFates(c: Chan)
    requires AckInv(c)
    ensures |c.hist.fates| <= |c.hist.delivered|
  {}

  lemma LostIsSomewhere(c: Chan, i: nat)
    ensures i in c.hist.at.lost ==> Where(c)[i] > 0
  {}

  /** Of all steps only such a deactivation loses a restore, and it always does. */
  lemma LossStep(c: Chan, a: Action)
    requires AckInv(c) && WhereInv(c) && Enabled(c, a)
    ensures NothingLost(Apply(c, a)) <==> NothingLost(c) && !LosesAt(c, a)
  {
    hide Apply, Enabled, AckInv, Matches, Positions;
    AckIsMonotone(c, a);
    FewerFates(c);
    if a.Deactivate? {
      DeactivationLoses(c);
    } else {
      LossElsewhere(c, a);
      var d := Apply(c, a);
      forall i: nat ensures RestoreLost(d, i) <==> RestoreLost(c, i) {
        LostIsSomewhere(c, i);
        assert Where(c)[i] == if Replayable(c, i) then 1 else 0;
      }
    }
  }

  lemma LossElsewhere(c: Chan, a: Action)
    requires Enabled(c, a) && !a.Deactivate?
    ensures var h := Apply(c, a).hist;
            h.at.lost == c.hist.at.lost
            && forall i :: |c.hist.fates| <= i < |h.fates| ==> !h.fates[i].DroppedParked?
  {
    hide Install, InstallAll, FinishCallback, Discard, Adjusted, Freed;
    match a {
      case ActivateFail => case PopLight => case InstallSlot => case Supersede => case _ =>
    }
  }

  lemma DeactivationFields(c: Chan)
    requires AckInv(c) && Enabled(c, Deactivate)
    ensures var d, parked := Apply(c, Deactivate), c.rt.slot.Parked?;
            d.hist.delivered == c.hist.delivered && d.hist.at.lost == c.hist.at.lost + c.hist.at.recovered
            && d.hist.fates == c.hist.fates + (if parked then [DroppedParked] else [])
            && (parked ==> |c.hist.fates| < |c.hist.delivered| && c.hist.delivered[|c.hist.fates|] == c.rt.slot.p)
  {
    hide ItemsOf, SlotItems;
    if c.rt.slot.Parked? { assert c.hist.delivered[|c.hist.fates|..][0] == Waiting(c)[0] == c.rt.slot.p; }
  }

  lemma DeactivationLoses(c: Chan)
    requires AckInv(c) && WhereInv(c) && Enabled(c, Deactivate)
    ensures NothingLost(Apply(c, Deactivate)) <==> NothingLost(c) && !LosesAt(c, Deactivate)
  {
    hide Apply, Enabled, AckInv, Positions;
    DeactivationFields(c);
    FewerFates(c);
    var d, n, at := Apply(c, Deactivate), |c.hist.fates|, c.hist.at.recovered;
    forall i: nat | RestoreLost(c, i) ensures RestoreLost(d, i) {}
    if c.rt.slot.Parked? && c.rt.slot.p.Restore? { assert RestoreLost(d, n); }
    if k :| 0 <= k < |c.rt.recovered| && c.rt.recovered[k].Restore? {
      RecoveredIsSettled(c, k);
      assert at[k] in d.hist.at.lost;
      assert RestoreLost(d, at[k]);
    }
    forall i: nat | RestoreLost(d, i) && !RestoreLost(c, i) ensures LosesAt(c, Deactivate) {
      if i in at {
        var k :| 0 <= k < |at| && at[k] == i;
        assert c.rt.recovered[k] == c.hist.delivered[i];
      }
    }
  }

  lemma RecoveredIsSettled(c: Chan, k: nat)
    requires WhereInv(c) && k < |c.rt.recovered|
    ensures c.hist.at.recovered[k] < |c.hist.fates|
  {
    var i := c.hist.at.recovered[k];
    assert multiset(c.hist.at.recovered)[i] > 0;
    assert Where(c)[i] == if Replayable(c, i) then 1 else 0;
  }

  lemma {:induction false} LossRun(c: Chan, acts: seq<Action>)
    requires AckInv(c) && FatesInv(c) && WhereInv(c) && Runs(c, acts)
    ensures NothingLost(After(c, acts)) <==> NothingLost(c) && !LosesRestore(c, acts)
    decreases |acts|
  {
    hide AckInv, FatesInv, WhereInv, Enabled, Apply, LosesAt, NothingLost;
    if acts != [] {
      AckStep(c, acts[0]);
      FatesStep(c, acts[0]);
      WhereStep(c, acts[0]);
      LossStep(c, acts[0]);
      LossRun(Apply(c, acts[0]), acts[1..]);
    }
  }

  /** Every restore whose sequence number has been resolved was installed by the drain, or
      recovered and then replayed once or still waiting for its replay, if and only if the run
      never deactivates with a restore parked or with one waiting for its replay.  Either way
      such a restore stays acknowledged and is never applied. */
  lemma RestoresSurvive(c0: Chan, acts: seq<Action>)
    requires Initial(c0) && Runs(c0, acts)
    ensures RestoresKept(After(c0, acts)) <==> !LosesRestore(c0, acts)
  {
    StartsRight(c0);
    NothingLostAtStart(c0);
    WhereRun(c0, acts);
    LossRun(c0, acts);
    KeptUnlessLost(After(c0, acts));
    hide RestoresKept, LosesRestore, NothingLost, After, Runs;
  }

  lemma NothingLostAtStart(c0: Chan)
    requires Initial(c0)
    ensures NothingLost(c0)
  {}

  // ---------- the two losses ----------

  /** A command sent and counted. */
  lemma SentAndCounted(c: Chan, p: Payload) returns (d: Chan)
    requires c.main.pending.None? && c.main.uncounted == 0 && |c.ring| < c.capacity
    ensures Runs(c, [Send(p), Count]) && d == After(c, [Send(p), Count])
    ensures d.ring == c.ring + [p] && d.main == Producer(None, c.main.nextSeq + 1, 0)
    ensures d.hist.delivered == c.hist.delivered + [p] && d.hist.fates == c.hist.fates && d.hist.at == c.hist.at
    ensures (d.capacity, d.active, d.rt, d.slim, d.cold, d.dsp)
            == (c.capacity, c.active, c.rt, c.slim, c.cold, c.dsp)
  {
    Extend(c, [], Send(p));
    Extend(c, [Send(p)], Count);
    assert [] + [Send(p)] == [Send(p)] && [Send(p)] + [Count] == [Send(p), Count];
    d := After(c, [Send(p), Count]);
  }

  lemma SingleNonModel(p: Payload)
    requires !p.Load?
    ensures Rollback.NonModels([p]) == [p] && Rollback.NonModelPositions([p]) == [0]
  {
    assert [p][..0] == [];
  }

  /** What a successful activation moves. */
  lemma ActivationFields(c: Chan)
    requires Enabled(c, ActivateOk)
    ensures var d := Apply(c, ActivateOk);
            d.active && d.ring == c.ring && d.rt == Consumer(Empty, c.cold.lastAck, 0, 0, false, c.cold.staged)
            && d.cold == c.cold.(staged := []) && d.main == c.main
            && d.hist == c.hist.(at := c.hist.at.(recovered := c.hist.at.staged, staged := []))
            && d.dsp == c.dsp.(side := d.dsp.side)
  {}

  lemma DeactivationClears(c: Chan)
    requires Enabled(c, Deactivate)
    ensures var d := Apply(c, Deactivate);
            !d.active && d.rt.recovered == [] && d.rt.slot.Empty? && d.ring == c.ring && d.dsp == c.dsp
            && d.cold.staged == c.cold.staged
            && d.cold.lastAck == if c.rt.slot.Parked? then c.rt.processed + 1 else c.cold.lastAck
  {
    hide ItemsOf, SlotItems, RebuildItems;
  }

  /** A failed activation with one command in the ring and nothing staged, then a success. */
  lemma RecoveredAlone(c: Chan, p: Payload) returns (d: Chan)
    requires AckInv(c) && !c.active && c.main.uncounted == 0 && c.ring == [p] && !p.Load?
    requires c.cold.staged == [] && c.hist.at.staged == []
    ensures Enabled(c, ActivateFail) && Enabled(Apply(c, ActivateFail), ActivateOk)
    ensures d == Apply(Apply(c, ActivateFail), ActivateOk) && AckInv(d) && Enabled(d, Deactivate)
    ensures d.rt.recovered == [p] && d.hist.at.recovered == [|c.hist.fates|] && d.cold.staged == [] && d.ring == []
    ensures d.hist.fates == c.hist.fates + [Recovered] && d.hist.delivered == c.hist.delivered
    ensures d.rt.slot.Empty? && d.cold.lastAck == c.cold.lastAck + 1
    ensures d.dsp == c.dsp.(side := d.dsp.side)
  {
    hide Apply, AckInv, Enabled, Rollback.NonModels, Rollback.NonModelPositions, Rollback.SlotAfter, Freed;
    MayRollBack(c);
    SingleNonModel(p);
    RollbackFields(c);
    AckStep(c, ActivateFail);
    var e := Apply(c, ActivateFail);
    assert BatchAt(c) == [|c.hist.fates|];
    MayActivate(e);
    ActivationFields(e);
    AckStep(e, ActivateOk);
    d := Apply(e, ActivateOk);
    MayDeactivate(d);
  }

  lemma MayRollBack(c: Chan)
    requires !c.active && c.main.uncounted == 0
    ensures Enabled(c, ActivateFail)
  {}

  lemma MayActivate(c: Chan)
    requires !c.active && c.main.uncounted == 0
    ensures Enabled(c, ActivateOk)
  {}

  /** A recovered restore is lost when the plugin is deactivated before its first callback: it is
      acknowledged, no longer anywhere, and never applied. */
  lemma UnreplayedRestoreIsLost(c0: Chan, t: RestoreTxn)
    requires Initial(c0) && c0.capacity >= 1
    ensures var acts := [Send(Restore(t)), Count, ActivateFail, ActivateOk, Deactivate];
            Runs(c0, acts)
            && var c := After(c0, acts);
               c.cold.lastAck == 1 && RestoreLost(c, 0) && c.hist.delivered == [Restore(t)]
               && c.ring == [] && c.cold.staged == [] && c.rt.recovered == [] && c.rt.slot.Empty?
               && c.dsp.appliedRestore == c0.dsp.appliedRestore && c.dsp.chain == c0.dsp.chain
  {
    hide Apply, Enabled, AckInv;
    StartsRight(c0);
    var p := Restore(t);
    var c2 := SentAndCounted(c0, p);
    RunIsMonotone(c0, [Send(p), Count]);
    var c4 := RecoveredAlone(c2, p);
    DeactivationFields(c4);
    DeactivationClears(c4);
    var two := [Send(p), Count];
    Extend(c0, two, ActivateFail);
    Extend(c0, two + [ActivateFail], ActivateOk);
    Extend(c0, two + [ActivateFail] + [ActivateOk], Deactivate);
    assert two + [ActivateFail] + [ActivateOk] + [Deactivate] == [Send(p), Count, ActivateFail, ActivateOk, Deactivate];
    var c5 := Apply(c4, Deactivate);
    assert c5.hist.at.lost == c4.hist.at.lost + [0] && 0 in c5.hist.at.lost;
  }

  /** The callback that installs one restore, parks a second for want of budget, and is the last
      before a deactivation. */
  const PARKING: seq<Action> :=
    [ActivateOk, BeginCallback, PopToHand, InstallSlot, PopToHand, Park, EndCallback, Deactivate]

  /** What such a callback depends on. */
  datatype Face = Face(
    ring: seq<Payload>, rt: Consumer, lastAck: nat, staged: seq<Payload>, fates: seq<Fate>, applied: nat)

  function FaceOf(c: Chan): Face {
    Face(c.ring, c.rt, c.cold.lastAck, c.cold.staged, c.hist.fates, c.dsp.appliedRestore)
  }

  lemma FaceOpens(c: Chan)
    requires Enabled(c, ActivateOk) && c.cold.staged == []
    ensures var d := Apply(c, ActivateOk);
            FaceOf(d) == FaceOf(c).(rt := Consumer(Empty, c.cold.lastAck, 0, 0, false, [])) && d.active
            && Enabled(d, BeginCallback)
            && FaceOf(Apply(d, BeginCallback)) == FaceOf(d).(rt := Consumer(Empty, c.cold.lastAck, 0, 1, true, []))
            && Apply(d, BeginCallback).active && Apply(d, BeginCallback).hist == d.hist
            && Apply(d, BeginCallback).main == c.main && d.hist.delivered == c.hist.delivered
  {}

  lemma FacePops(c: Chan)
    requires c.rt.inside && c.rt.slot.Empty? && c.ring != [] && IsStructural(c.ring[0])
    ensures Enabled(c, PopToHand)
    ensures var d := Apply(c, PopToHand);
            FaceOf(d) == FaceOf(c).(ring := c.ring[1..],
                                    rt := c.rt.(slot := InHand(c.ring[0]), processed := c.rt.processed + 1))
            && d.active == c.active && d.main == c.main && d.hist == c.hist
  {}

  lemma FaceInstalls(c: Chan, t: RestoreTxn)
    requires c.rt.inside && c.rt.slot == InHand(Restore(t)) && c.rt.budget > 0
    ensures Enabled(c, InstallSlot)
    ensures var d := Apply(c, InstallSlot);
            FaceOf(d) == FaceOf(c).(rt := c.rt.(slot := Empty, resolved := c.rt.resolved + 1, budget := c.rt.budget - 1),
                                    fates := c.hist.fates + [Installed], applied := t.generation)
            && d.active == c.active && d.main == c.main && d.hist.delivered == c.hist.delivered
  {
    hide MaybeModel, MaybeIr, ApplyParams;
  }

  lemma FaceParks(c: Chan)
    requires c.rt.inside && c.rt.slot.InHand? && c.rt.processed > 0
    ensures Enabled(c, Park)
    ensures var d := Apply(c, Park);
            FaceOf(d) == FaceOf(c).(rt := c.rt.(slot := Parked(c.rt.slot.p), processed := c.rt.processed - 1))
            && d.active == c.active && d.main == c.main && d.hist == c.hist
  {}

  lemma FaceCloses(c: Chan)
    requires c.rt.inside && c.rt.slot.Parked?
    ensures Enabled(c, EndCallback)
    ensures var d := Apply(c, EndCallback);
            FaceOf(d) == FaceOf(c).(rt := c.rt.(inside := false, resolved := 0), lastAck := c.cold.lastAck + c.rt.resolved)
            && d.active == c.active && d.main == c.main && d.hist == c.hist
  {}

  /** Up to the end of the callback. */
  lemma SecondIsParked(c: Chan, t: RestoreTxn, u: RestoreTxn)
    requires Enabled(c, ActivateOk) && c.cold.staged == [] && c.ring == [Restore(t), Restore(u)]
    requires c.hist.fates == [] && c.cold.lastAck == 0 && c.main.uncounted == 0
    ensures Runs(c, PARKING[..7])
    ensures var d := After(c, PARKING[..7]);
            FaceOf(d) == Face([], Consumer(Parked(Restore(u)), 1, 0, 0, false, []), 1, [], [Installed], t.generation)
            && d.active && d.main == c.main
  {
    hide Apply, Enabled;
    FaceOpens(c);
    var c1 := Apply(c, ActivateOk);
    var c2 := Apply(c1, BeginCallback);
    FacePops(c2);
    var c3 := Apply(c2, PopToHand);
    FaceInstalls(c3, t);
    var c4 := Apply(c3, InstallSlot);
    FacePops(c4);
    var c5 := Apply(c4, PopToHand);
    FaceParks(c5);
    var c6 := Apply(c5, Park);
    FaceCloses(c6);
    SevenSteps(c, c1, c2, c3, c4, c5, c6, Apply(c6, EndCallback));
  }

  /** The second of two restores is parked by the budget of one per callback; deactivating then
      acknowledges it although it was never applied. */
  lemma ParkedRestoreIsLost(c0: Chan, t: RestoreTxn, u: RestoreTxn)
    requires Initial(c0) && c0.capacity >= 2
    ensures var acts := [Send(Restore(t)), Count] + [Send(Restore(u)), Count] + PARKING;
            Runs(c0, acts)
            && var d := After(c0, acts);
               d.cold.lastAck == 2 && RestoreLost(d, 1) && d.hist.delivered == [Restore(t), Restore(u)]
               && d.ring == [] && d.rt.slot.Empty? && d.dsp.appliedRestore == t.generation
  {
    hide Apply, Enabled, AckInv, Runs, After, PARKING;
    StartsRight(c0);
    var first, second := [Send(Restore(t)), Count], [Send(Restore(u)), Count];
    var c2 := SentAndCounted(c0, Restore(t));
    var c4 := SentAndCounted(c2, Restore(u));
    RunsConcat(c0, first, second);
    RunIsMonotone(c0, first + second);
    ParkedRestoreDropped(c4, t, u);
    RunsConcat(c0, first + second, PARKING);
    RunIsMonotone(c4, PARKING);
    NothingWaits(After(c4, PARKING));
  }

  lemma NothingWaits(d: Chan)
    requires AckInv(d) && d.ring == [] && d.rt.slot.Empty?
    ensures |d.hist.delivered| == |d.hist.fates|
  {}

  lemma ParkedRestoreDropped(c: Chan, t: RestoreTxn, u: RestoreTxn)
    requires AckInv(c) && !c.active && c.cold.staged == [] && c.main.uncounted == 0
    requires c.ring == [Restore(t), Restore(u)] && c.hist.fates == []
    ensures Runs(c, PARKING)
    ensures var d := After(c, PARKING);
            d.cold.lastAck == 2 && RestoreLost(d, 1) && d.hist.fates == [Installed, DroppedParked]
            && d.ring == [] && d.rt.slot.Empty? && d.dsp.appliedRestore == t.generation
  {
    hide Apply, Enabled, AckInv, Runs, After, PARKING;
    DeactivationEnds();
    NothingAcked(c);
    SecondIsParked(c, t, u);
    RunIsMonotone(c, PARKING[..7]);
    var d := After(c, PARKING[..7]);
    MayDeactivate(d);
    Extend(c, PARKING[..7], Deactivate);
    DeactivationFields(d);
    DeactivationClears(d);
  }

  lemma DeactivationEnds()
    ensures |PARKING| == 8 && PARKING[..7] + [Deactivate] == PARKING
  {}

  lemma NothingAcked(c: Chan)
    requires AckInv(c) && !c.active && c.main.uncounted == 0 && c.hist.fates == []
    ensures c.cold.lastAck == 0 && Enabled(c, ActivateOk)
  {}

  lemma MayDeactivate(c: Chan)
    requires c.active && !c.rt.inside && c.main.uncounted == 0
    ensures Enabled(c, Deactivate)
  {}

  lemma SevenSteps(c: Chan, c1: Chan, c2: Chan, c3: Chan, c4: Chan, c5: Chan, c6: Chan, c7: Chan)
    requires Enabled(c, ActivateOk) && c1 == Apply(c, ActivateOk)
    requires Enabled(c1, BeginCallback) && c2 == Apply(c1, BeginCallback)
    requires Enabled(c2, PopToHand) && c3 == Apply(c2, PopToHand)
    requires Enabled(c3, InstallSlot) && c4 == Apply(c3, InstallSlot)
    requires Enabled(c4, PopToHand) && c5 == Apply(c4, PopToHand)
    requires Enabled(c5, Park) && c6 == Apply(c5, Park)
    requires Enabled(c6, EndCallback) && c7 == Apply(c6, EndCallback)
    ensures Runs(c, PARKING[..7]) && After(c, PARKING[..7]) == c7
  {
    hide Enabled, Apply;
    assert Runs(c, []) && After(c, []) == c;
    Extend(c, [], ActivateOk);
    assert [] + [ActivateOk] == PARKING[..1];
    Extend(c, PARKING[..1], BeginCallback);
    assert PARKING[..1] + [BeginCallback] == PARKING[..2];
    Extend(c, PARKING[..2], PopToHand);
    assert PARKING[..2] + [PopToHand] == PARKING[..3];
    Extend(c, PARKING[..3], InstallSlot);
    assert PARKING[..3] + [InstallSlot] == PARKING[..4];
    Extend(c, PARKING[..4], PopToHand);
    assert PARKING[..4] + [PopToHand] == PARKING[..5];
    Extend(c, PARKING[..5], Park);
    assert PARKING[..5] + [Park] == PARKING[..6];
    Extend(c, PARKING[..6], EndCallback);
    assert PARKING[..6] + [EndCallback] == PARKING[..7];
  }

  // ---------- replay order ----------

  predicate Ascending(at: seq<nat>) {
    forall i, j :: 0 <= i < j < |at| ==> at[i] < at[j]
  }

  /** Failed activations since the last successful one that staged at least one command. */
  function Batches(c: Chan, acts: seq<Action>, n: nat): nat
    requires Runs(c, acts)
    decreases |acts|
  {
    if acts == [] then n
    else
      Batches(Apply(c, acts[0]), acts[1..], BatchesBy(c, acts[0], n))
  }

  function BatchesBy(c: Chan, a: Action, n: nat): nat {
    match a
    case ActivateOk => 0
    case ActivateFail => if Rollback.NonModels(c.ring) == [] then n else n + 1
    case _ => n
  }

  predicate OrderInv(c: Chan, n: nat) {
    (n == 0 <==> c.hist.at.staged == []) && (Ascending(c.hist.at.staged) <==> n <= 1)
  }

  lemma StackedOrder(at: seq<nat>, start: nat, was: seq<nat>)
    requires Ascending(at) && (was != [] ==> was[0] < start)
    ensures Ascending(Shifted(at, start) + was) <==> Ascending(was) && (at == [] || was == [])
  {
    var batch := Shifted(at, start);
    var now := batch + was;
    if at != [] && was != [] {
      assert now[0] >= start > was[0] == now[|batch|];
    } else if at == [] {
      assert now == was;
    } else {
      assert now == batch;
    }
  }

  lemma StagedIsSettled(c: Chan)
    requires WhereInv(c) && c.hist.at.staged != []
    ensures c.hist.at.staged[0] < |c.hist.fates|
  {
    var i := c.hist.at.staged[0];
    assert multiset(c.hist.at.staged)[i] > 0;
    assert Where(c)[i] == if Replayable(c, i) then 1 else 0;
  }

  lemma RollbackOrder(c: Chan, n: nat)
    requires AckInv(c) && WhereInv(c) && OrderInv(c, n) && Enabled(c, ActivateFail)
    ensures OrderInv(Apply(c, ActivateFail), if Rollback.NonModels(c.ring) == [] then n else n + 1)
  {
    RollbackFields(c);
    Rollback.StagedInRingOrder(c.ring);
    if c.hist.at.staged != [] { StagedIsSettled(c); }
    hide Apply, Enabled, AckInv, WhereInv, Rollback.NonModels, Rollback.NonModelPositions, Rollback.SlotAfter, Freed;
    StackedOrder(Rollback.NonModelPositions(c.ring), |c.hist.fates|, c.hist.at.staged);
    if Rollback.NonModels(c.ring) == [] { assert BatchAt(c) + c.hist.at.staged == c.hist.at.staged; }
  }

  lemma {:induction false} OrderRun(c: Chan, acts: seq<Action>, n: nat)
    requires AckInv(c) && WhereInv(c) && FatesInv(c) && OrderInv(c, n) && Runs(c, acts)
    ensures OrderInv(After(c, acts), Batches(c, acts, n))
    decreases |acts|
  {
    hide AckInv, WhereInv, FatesInv, OrderInv, BatchesBy, Enabled, Apply;
    if acts != [] {
      OrderStep(c, acts[0], n);
      AckStep(c, acts[0]);
      FatesStep(c, acts[0]);
      WhereStep(c, acts[0]);
      OrderRun(Apply(c, acts[0]), acts[1..], BatchesBy(c, acts[0], n));
    }
  }

  lemma OrderStep(c: Chan, a: Action, n: nat)
    requires AckInv(c) && WhereInv(c) && OrderInv(c, n) && Enabled(c, a)
    ensures OrderInv(Apply(c, a), BatchesBy(c, a, n))
  {
    hide AckInv, Enabled, Apply, OnceEach, Where, Ascending;
    if a.ActivateFail? {
      RollbackOrder(c, n);
    } else {
      StagingMoves(c, a);
      NothingInOrder();
    }
  }

  lemma NothingInOrder()
    ensures Ascending([])
  {}

  /** Each new batch goes in front of what is already staged.  So over every run the commands
      waiting for the next activation stand in the order in which they were sent if and only if
      at most one failed activation since the last successful one staged anything. */
  lemma ReplayOrder(c0: Chan, acts: seq<Action>)
    requires Initial(c0) && Runs(c0, acts)
    ensures Ascending(After(c0, acts).hist.at.staged) <==> Batches(c0, acts, 0) <= 1
  {
    StartsRight(c0);
    assert OrderInv(c0, 0);
    OrderRun(c0, acts, 0);
    hide After, Runs, Batches, Ascending;
  }

  /** One failed activation with one command in the ring. */
  lemma OneStagedInFront(c: Chan, p: Payload)
    requires AckInv(c) && !c.active && c.main.uncounted == 0 && c.ring == [p] && !p.Load?
    ensures Enabled(c, ActivateFail)
    ensures var d := Apply(c, ActivateFail);
            AckInv(d) && d.cold.staged == [p] + c.cold.staged && d.hist.at.staged == [|c.hist.fates|] + c.hist.at.staged
            && |d.hist.fates| == |c.hist.fates| + 1 && d.ring == [] && !d.active && d.main == c.main
            && d.capacity == c.capacity
  {
    SingleNonModel(p);
    RollbackFields(c);
    AckStep(c, ActivateFail);
    assert BatchAt(c) == [|c.hist.fates|];
  }

  /** Two failed activations with a command sent before each: the later one would be replayed
      first. */
  lemma TwoFailuresReverse(c0: Chan, p: Payload, q: Payload)
    requires Initial(c0) && c0.capacity >= 1 && !p.Load? && !q.Load?
    ensures var acts := [Send(p), Count] + [ActivateFail] + ([Send(q), Count] + [ActivateFail]);
            Runs(c0, acts) && After(c0, acts).cold.staged == [q, p] && After(c0, acts).hist.at.staged == [1, 0]
  {
    hide Apply, Enabled, AckInv, Runs, After, Initial;
    NothingAtStart(c0);
    var c := OneMoreFailure(c0, p);
    var d := OneMoreFailure(c, q);
    RunsConcat(c0, [Send(p), Count] + [ActivateFail], [Send(q), Count] + [ActivateFail]);
  }

  lemma NothingAtStart(c0: Chan)
    requires Initial(c0)
    ensures AckInv(c0) && !c0.active && c0.main == Producer(None, 0, 0) && c0.ring == [] && c0.hist.fates == []
    ensures c0.cold.staged == [] && c0.hist.at.staged == []
  {}

  /** A command sent to an empty ring, and a failed activation. */
  lemma OneMoreFailure(c: Chan, p: Payload) returns (d: Chan)
    requires AckInv(c) && !c.active && c.main.pending.None? && c.main.uncounted == 0
    requires c.ring == [] && c.capacity >= 1 && !p.Load?
    ensures Runs(c, [Send(p), Count] + [ActivateFail]) && d == After(c, [Send(p), Count] + [ActivateFail])
    ensures AckInv(d) && !d.active && d.main.pending.None? && d.main.uncounted == 0 && d.ring == []
    ensures d.capacity == c.capacity && d.cold.staged == [p] + c.cold.staged
    ensures d.hist.at.staged == [|c.hist.fates|] + c.hist.at.staged && |d.hist.fates| == |c.hist.fates| + 1
  {
    hide Apply, Enabled, AckInv, Runs, After;
    var e := SentAndCounted(c, p);
    RunIsMonotone(c, [Send(p), Count]);
    OneStagedInFront(e, p);
    Extend(c, [Send(p), Count], ActivateFail);
    d := Apply(e, ActivateFail);
  }

  // ---------- accounting ----------

  predicate Outranked(c: Chan, m: LoadModel) {
    c.cold.pendingModel.Some? && m.generation <= c.cold.pendingModel.value.generation
  }

  /** A failed activation in any reachable state empties the ring and acknowledges everything ever
      pushed; every command taken out has the fate `Recovered`; each other command than a model is
      staged, exactly once; and the waiting model is at least as new as every one taken out. */
  lemma FailedActivationAccountsForAll(c0: Chan, acts: seq<Action>)
    requires Initial(c0) && Runs(c0, acts) && Enabled(After(c0, acts), ActivateFail)
    ensures var c := After(c0, acts);
            var d := Apply(c, ActivateFail);
            var n := |c.hist.fates|;
            d.ring == [] && d.cold.lastAck == d.main.nextSeq == |d.hist.delivered| == |d.hist.fates|
            && d.rt.processed == d.cold.lastAck
            && (forall i :: n <= i < |d.hist.fates| ==> d.hist.fates[i] == Recovered)
            && (forall k :: 0 <= k < |c.ring| ==>
                  if c.ring[k].Load? then Outranked(d, c.ring[k].load)
                  else multiset(d.hist.at.staged)[n + k] == Where(d)[n + k] == 1)
  {
    hide Apply, Enabled, AckInv, WhereInv, Where, Outranked;
    StartsRight(c0);
    WhereRun(c0, acts);
    RollbackAccounts(After(c0, acts));
  }

  lemma RollbackAccounts(c: Chan)
    requires AckInv(c) && WhereInv(c) && Enabled(c, ActivateFail)
    ensures var d := Apply(c, ActivateFail);
            var n := |c.hist.fates|;
            d.ring == [] && d.cold.lastAck == d.main.nextSeq == |d.hist.delivered| == |d.hist.fates|
            && d.rt.processed == d.cold.lastAck
            && (forall i :: n <= i < |d.hist.fates| ==> d.hist.fates[i] == Recovered)
            && (forall k :: 0 <= k < |c.ring| ==>
                  if c.ring[k].Load? then Outranked(d, c.ring[k].load)
                  else multiset(d.hist.at.staged)[n + k] == Where(d)[n + k] == 1)
  {
    hide Apply, Enabled, AckInv, WhereInv, Where, BatchAt, Outranked;
    hide Rollback.NonModels, Rollback.NonModelPositions, Rollback.SlotAfter, Freed;
    AckStep(c, ActivateFail);
    RollbackFields(c);
    RollbackIsCold(c);
    AllAcked(Apply(c, ActivateFail));
    var d, n := Apply(c, ActivateFail), |c.hist.fates|;
    forall k | 0 <= k < |c.ring|
      ensures if c.ring[k].Load? then Outranked(d, c.ring[k].load)
              else multiset(d.hist.at.staged)[n + k] == Where(d)[n + k] == 1
    {
      if c.ring[k].Load? { LoadOutranked(c, d, k); } else { StagedOnce(c, k); }
    }
  }

  lemma RollbackIsCold(c: Chan)
    requires Enabled(c, ActivateFail)
    ensures !c.active && c.main.uncounted == 0
  {}

  lemma LoadOutranked(c: Chan, d: Chan, k: nat)
    requires k < |c.ring| && c.ring[k].Load?
    requires d.cold.pendingModel == Rollback.SlotAfter(c.cold.pendingModel, c.ring)
    ensures Outranked(d, c.ring[k].load)
  {
    Rollback.SlotOnlyGrows(c.cold.pendingModel, c.ring);
  }

  lemma AllAcked(d: Chan)
    requires AckInv(d) && d.ring == [] && d.rt.slot.Empty? && d.main.uncounted == 0 && d.cold.lastAck == d.rt.processed
    ensures d.cold.lastAck == d.main.nextSeq == |d.hist.delivered| == |d.hist.fates|
  {}

  lemma StagedOnce(c: Chan, k: nat)
    requires AckInv(c) && WhereInv(c) && Enabled(c, ActivateFail) && k < |c.ring| && !c.ring[k].Load?
    ensures var d, i := Apply(c, ActivateFail), |c.hist.fates| + k;
            multiset(d.hist.at.staged)[i] == Where(d)[i] == 1
  {
    hide Apply, Enabled, AckInv, Rollback.NonModels, Rollback.NonModelPositions, Rollback.SlotAfter, Freed;
    RollbackFields(c);
    var i := |c.hist.fates| + k;
    BatchOnce(c.ring, |c.hist.fates|, i);
    RollbackOnce(c, i);
    assert multiset(BatchAt(c) + c.hist.at.staged) == multiset(BatchAt(c)) + multiset(c.hist.at.staged);
  }
}
