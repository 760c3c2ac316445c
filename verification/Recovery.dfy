/** What a failed activation does to the meaning of the commands it found in the ring.  The
    rollback separates models from other commands; the next activation sends the newest model
    again and the first callback replays the others before it.  Everything but the model ends as
    if nothing had failed.  The model does too if the last command that brought one is a plain load
    and the newest of the plain loads; a restore may come behind a load, and a load that was
    prepared in the background may come behind a newer one. */
module Recovery {
  import opened Options
  import opened Payloads
  import opened SwapDomain
  import opened Channel
  import opened ChannelMeaning
  import opened ChannelReplay
  import opened ChannelOrigins
  import opened FinalState
  import Rollback

  // ---------- command sequences ----------

  /** No two commands bring models of one generation. */
  predicate DistinctModels(ps: seq<Payload>) {
    forall i, j :: 0 <= i < j < |ps| && LoadOf(ps[i]).Some? && LoadOf(ps[j]).Some? ==>
      LoadOf(ps[i]).value.generation != LoadOf(ps[j]).value.generation
  }

  /** The `k`-th command is a plain load, the last command that brings a model, and newer than every
      other plain load. */
  predicate IsLastAndNewest(ps: seq<Payload>, k: int) {
    0 <= k < |ps| && ps[k].Load?
    && (forall j :: k < j < |ps| ==> LoadOf(ps[j]).None?)
    && (forall i :: 0 <= i < |ps| && i != k && ps[i].Load? ==> ps[i].load.generation < ps[k].load.generation)
  }

  predicate LastModelIsNewestLoad(ps: seq<Payload>) { exists k :: 0 <= k < |ps| && IsLastAndNewest(ps, k) }

  /** The order in which recovered commands are installed. */
  function Recovered(ps: seq<Payload>, m: Option<LoadModel>): seq<Payload> {
    Rollback.NonModels(ps) + (if m.Some? then [Load(m.value)] else [])
  }

  /** Equal in all that commands write but the model chain and the latencies that follow from it. */
  predicate SameButModel(a: Dsp, b: Dsp) {
    a.cfg == b.cfg && a.os == b.os && a.ir == b.ir && a.control == b.control && a.appliedRestore == b.appliedRestore
  }

  lemma {:induction false} OthersWriteTheSame(cfg: Config, ps: seq<Payload>)
    ensures var qs := Rollback.NonModels(ps);
            LastParams(qs) == LastParams(ps) && LastIr(cfg, qs) == LastIr(cfg, ps)
            && LastEngines(qs) == LastEngines(ps) && LastRestore(qs) == LastRestore(ps)
  {
    hide Accepts;
    if ps != [] {
      var n := |ps| - 1;
      OthersWriteTheSame(cfg, ps[..n]);
      if !ps[n].Load? {
        var rest := Rollback.NonModels(ps[..n]);
        assert (rest + [ps[n]])[..|rest|] == rest;
      }
    }
  }

  lemma LoadWritesTheModel(cfg: Config, qs: seq<Payload>, m: LoadModel)
    ensures var rs := qs + [Load(m)];
            LastParams(rs) == LastParams(qs) && LastIr(cfg, rs) == LastIr(cfg, qs)
            && LastEngines(rs) == LastEngines(qs) && LastRestore(rs) == LastRestore(qs) && LastLoad(rs) == Some(m)
  {
    assert (qs + [Load(m)])[..|qs|] == qs;
  }

  /** Nothing is held back from a ring without loads. */
  lemma {:induction false} WithoutLoads(ps: seq<Payload>)
    requires Rollback.NewestModel(ps).None?
    ensures Rollback.NonModels(ps) == ps
  {
    if ps != [] {
      WithoutLoads(ps[..|ps| - 1]);
      assert ps == ps[..|ps| - 1] + [ps[|ps| - 1]];
    }
  }

  predicate IsLastModel(ps: seq<Payload>, k: int) {
    0 <= k < |ps| && LoadOf(ps[k]).Some? && forall j :: k < j < |ps| ==> LoadOf(ps[j]).None?
  }

  lemma {:induction false} LastModelAt(ps: seq<Payload>) returns (k: int)
    requires LastLoad(ps).Some?
    ensures IsLastModel(ps, k) && LoadOf(ps[k]) == LastLoad(ps)
  {
    var n := |ps| - 1;
    if LoadOf(ps[n]).Some? {
      k := n;
    } else {
      k := LastModelAt(ps[..n]);
    }
  }

  lemma {:induction false} SomeModelIsLast(ps: seq<Payload>, k: int)
    requires 0 <= k < |ps| && LoadOf(ps[k]).Some?
    ensures LastLoad(ps).Some?
  {
    var n := |ps| - 1;
    if k < n { SomeModelIsLast(ps[..n], k); }
  }

  /** The newest plain load is also the last model exactly if the last model is a plain load newer
      than all the others. */
  lemma NewestAgainstLast(ps: seq<Payload>, m: LoadModel)
    requires DistinctModels(ps) && Rollback.NewestModel(ps) == Some(Rollback.Deferred(m))
    ensures LastLoad(ps).Some?
    ensures SourceOf(LastLoad(ps).value) == SourceOf(m) <==> LastModelIsNewestLoad(ps)
  {
    hide LastLoad, Rollback.NewestModel;
    Rollback.NewestIsMaximum(ps);
    var k: int :| Rollback.IsNewest(ps, k) && Rollback.NewestModel(ps) == Some(Rollback.Deferred(ps[k].load));
    SomeModelIsLast(ps, k);
    var l := LastModelAt(ps);
    assert SourceOf(m) == SourceOfPending(Rollback.Deferred(ps[k].load)) == SourceOf(ps[k].load);
    assert LoadOf(ps[k]).Some? && LoadOf(ps[l]).Some?;
    if SourceOf(LastLoad(ps).value) == SourceOf(m) {
      assert k == l;
      forall i | 0 <= i < |ps| && i != k && ps[i].Load? ensures ps[i].load.generation < ps[k].load.generation {
        assert LoadOf(ps[i]).Some?;
      }
      assert IsLastAndNewest(ps, k);
    }
    if n: int :| IsLastAndNewest(ps, n) {
      assert n == l;
      assert n == k;
    }
  }

  /** Everything but the model is as plain installation leaves it, whichever model is sent again. */
  lemma OthersSurvive(d: Dsp, ps: seq<Payload>, m: LoadModel)
    ensures SameButModel(InstallAll(d, ps), InstallAll(d, Recovered(ps, Some(m))))
    ensures SourceOfChain(InstallAll(d, Recovered(ps, Some(m))).chain) == SourceOf(m)
  {
    hide InstallAll, LatencyConsistent, LastParams, LastIr, LastEngines, LastRestore, LastLoad;
    hide Rollback.NonModels, ControlOf;
    InstallationIsLastWrites(d, ps);
    InstallationIsLastWrites(d, Recovered(ps, Some(m)));
    OthersWriteTheSame(d.cfg, ps);
    LoadWritesTheModel(d.cfg, Rollback.NonModels(ps), m);
  }

  /** After one failure everything but the model is as plain installation leaves it; and the model
      is the same, its resampler and stream built anew, if and only if the last command that
      brought one is a plain load newer than every other plain load. */
  lemma RecoveryAgainstPlain(d: Dsp, ps: seq<Payload>, m: LoadModel)
    requires Rollback.NewestModel(ps) == Some(Rollback.Deferred(m)) && DistinctModels(ps)
    ensures var plain, recovered := InstallAll(d, ps), InstallAll(d, Recovered(ps, Some(m)));
            SameButModel(plain, recovered)
            && SourceOfChain(recovered.chain) == SourceOf(m)
            && (SourceOfChain(plain.chain) == SourceOfChain(recovered.chain) <==> LastModelIsNewestLoad(ps))
  {
    hide InstallAll, LatencyConsistent, LastParams, LastIr, LastEngines, LastRestore, LastLoad, LastModelIsNewestLoad;
    hide Rollback.NewestModel, Rollback.NonModels, DistinctModels, ControlOf, Recovered;
    OthersSurvive(d, ps, m);
    InstallationIsLastWrites(d, ps);
    NewestAgainstLast(ps, m);
    assert SourceOfChain(ChainOf(LastLoad(ps).value)) == SourceOf(LastLoad(ps).value);
  }

  // ---------- the run ----------

  /** A failed activation, the flush of the waiting snapshot and of the recovered model, and an
      activation that succeeds. */
  function RecoverySteps(c: Chan, m: Option<LoadModel>): seq<Action> {
    [ActivateFail]
    + ((if c.main.pending.Some? then [Flush, Count] else [])
       + (if m.Some? then [FlushModel(m.value), Count] else []))
    + [ActivateOk]
  }

  /** The model that waits after a rollback of `c`, sent with some resampler and stream. */
  predicate Resends(c: Chan, m: Option<LoadModel>) {
    Rollback.SlotAfter(c.cold.pendingModel, c.ring) == if m.Some? then Some(Rollback.Deferred(m.value)) else None
  }

  /** The model that runs once everything outstanding is installed and the waiting model sent. */
  function Intended(c: Chan): Source {
    if c.cold.pendingModel.Some? then SourceOfPending(c.cold.pendingModel.value)
    else SourceOfChain(Eventually(c).chain)
  }

  /** A waiting model survives unless a newer plain load is in the ring.  With none waiting, the
      last model survives if the ring brings none as a plain load, or if it is itself the newest
      plain load. */
  predicate ModelSurvives(c: Chan) {
    var newest := Rollback.NewestModel(c.ring);
    newest.None?
    || if c.cold.pendingModel.Some? then newest.value.generation <= c.cold.pendingModel.value.generation
       else LastModelIsNewestLoad(c.ring)
  }

  /** What the steps before the activation touch, besides the history. */
  datatype Front = Front(
    ring: seq<Payload>, pending: Option<Params>, uncounted: nat, pendingModel: Option<Rollback.PendingModel>,
    staged: seq<Payload>, recovered: seq<Payload>, slot: Slot, capacity: nat, active: bool, dsp: Dsp)

  function FrontOf(c: Chan): Front {
    Front(c.ring, c.main.pending, c.main.uncounted, c.cold.pendingModel, c.cold.staged, c.rt.recovered, c.rt.slot,
          c.capacity, c.active, c.dsp)
  }

  lemma FrontFails(c: Chan)
    requires AckInv(c) && Enabled(c, ActivateFail)
    ensures FrontOf(Apply(c, ActivateFail))
            == FrontOf(c).(ring := [], staged := Rollback.NonModels(c.ring) + c.cold.staged,
                           pendingModel := Rollback.SlotAfter(c.cold.pendingModel, c.ring))
    ensures c.rt.slot.Empty? && !c.active && c.main.uncounted == 0
  {
    hide Apply, Enabled, AckInv, Freed, Rollback.NonModels, Rollback.SlotAfter, Rollback.NonModelPositions, BatchAt;
    RollbackFields(c);
    RollbackIsCold(c);
  }

  lemma FrontFlushes(c: Chan)
    requires c.main.pending.Some? && |c.ring| < c.capacity && c.main.uncounted == 0
    ensures Runs(c, [Flush, Count])
    ensures FrontOf(After(c, [Flush, Count])) == FrontOf(c).(ring := c.ring + Coalesced(c), pending := None)
  {
    TwoSteps(c, Flush, Count);
  }

  lemma FrontSends(c: Chan, m: LoadModel)
    requires c.main.pending.None? && |c.ring| < c.capacity && c.main.uncounted == 0
    requires c.cold.pendingModel == Some(Rollback.Deferred(m))
    ensures Runs(c, [FlushModel(m), Count])
    ensures FrontOf(After(c, [FlushModel(m), Count])) == FrontOf(c).(ring := c.ring + [Load(m)], pendingModel := None)
  {
    TwoSteps(c, FlushModel(m), Count);
  }

  lemma NothingHappens(c: Chan)
    ensures Runs(c, []) && After(c, []) == c
  {}

  /** Between the failure and the success. */
  lemma Resent(c: Chan, m: Option<LoadModel>)
    requires !c.active && c.main.uncounted == 0 && c.ring == [] && c.capacity >= 2
    requires c.cold.pendingModel == if m.Some? then Some(Rollback.Deferred(m.value)) else None
    ensures var acts := (if c.main.pending.Some? then [Flush, Count] else [])
                        + (if m.Some? then [FlushModel(m.value), Count] else []);
            Runs(c, acts)
            && FrontOf(After(c, acts))
               == FrontOf(c).(ring := Coalesced(c) + (if m.Some? then [Load(m.value)] else []),
                              pendingModel := None,
                              pending := if c.main.pending.Some? then None else c.main.pending)
  {
    hide Runs, After, Coalesced;
    NothingHappens(c);
    var first := if c.main.pending.Some? then [Flush, Count] else [];
    if c.main.pending.Some? { FrontFlushes(c); }
    CoalescedIsShort(c);
    var d := After(c, first);
    NothingHappens(d);
    assert d.ring == Coalesced(c);
    if m.Some? { FrontSends(d, m.value); }
    RunsConcat(c, first, if m.Some? then [FlushModel(m.value), Count] else []);
  }

  lemma CoalescedIsShort(c: Chan)
    ensures |Coalesced(c)| <= 1 && (c.main.pending.None? ==> Coalesced(c) == [])
  {}

  /** The steps can be taken, and afterwards exactly the other commands, the waiting snapshot and
      the newest model are outstanding, in this order. */
  lemma OutstandingAfterRecovery(c: Chan, m: Option<LoadModel>)
    requires AckInv(c) && ReplayOnlyActive(c) && Enabled(c, ActivateFail) && c.capacity >= 2
    requires c.cold.staged == [] && Resends(c, m)
    ensures Runs(c, RecoverySteps(c, m)) && Outstanding(c) == c.ring + Coalesced(c)
    ensures var d := After(c, RecoverySteps(c, m));
            Outstanding(d) == Recovered(c.ring + Coalesced(c), m) && d.dsp == c.dsp.(side := d.dsp.side)
            && d.cold.pendingModel.None?
  {
    hide AckInv, Apply, Enabled, Runs, After, Rollback.NewestModel, Rollback.NonModels, Rollback.SlotAfter, Coalesced;
    FrontFails(c);
    var c1 := Apply(c, ActivateFail);
    assert c1.cold.staged == Rollback.NonModels(c.ring);
    Resent(c1, m);
    var acts := (if c.main.pending.Some? then [Flush, Count] else [])
                + (if m.Some? then [FlushModel(m.value), Count] else []);
    var c2 := After(c1, acts);
    NothingHappens(c);
    Extend(c, [], ActivateFail);
    assert [] + [ActivateFail] == [ActivateFail];
    RunsConcat(c, [ActivateFail], acts);
    MayActivate(c2);
    ActivationFields(c2);
    Extend(c, [ActivateFail] + acts, ActivateOk);
    assert RecoverySteps(c, m) == [ActivateFail] + acts + [ActivateOk];
    SnapshotStaysBehind(c, m);
    SameSnapshot(c, c1);
    OutstandingOnceActive(Apply(c2, ActivateOk));
    assert Waiting(c) == c.ring;
  }

  lemma SameSnapshot(c: Chan, d: Chan)
    requires c.main.pending == d.main.pending
    ensures Coalesced(c) == Coalesced(d)
  {}

  lemma OutstandingOnceActive(d: Chan)
    requires d.rt.slot.Empty? && d.main.pending.None?
    ensures Outstanding(d) == d.rt.recovered + d.ring
  {}

  lemma SnapshotStaysBehind(c: Chan, m: Option<LoadModel>)
    ensures Rollback.NonModels(c.ring + Coalesced(c)) == Rollback.NonModels(c.ring) + Coalesced(c)
    ensures Rollback.NewestModel(c.ring + Coalesced(c)) == Rollback.NewestModel(c.ring)
  {
    if c.main.pending.Some? {
      assert (c.ring + Coalesced(c))[..|c.ring|] == c.ring;
    } else {
      assert c.ring + Coalesced(c) == c.ring;
    }
  }

  lemma SnapshotBringsNoModel(c: Chan)
    requires DistinctModels(c.ring)
    ensures DistinctModels(c.ring + Coalesced(c))
    ensures LastModelIsNewestLoad(c.ring + Coalesced(c)) <==> LastModelIsNewestLoad(c.ring)
  {
    if c.main.pending.Some? {
      var all := c.ring + Coalesced(c);
      if k: int :| IsLastAndNewest(c.ring, k) {
        assert all[k] == c.ring[k];
        forall i | 0 <= i < |all| && i != k && all[i].Load? ensures all[i].load.generation < all[k].load.generation {
          assert all[i] == c.ring[i];
        }
        assert IsLastAndNewest(all, k);
      }
      if k: int :| IsLastAndNewest(all, k) {
        assert all[k] == c.ring[k];
        forall j | k < j < |c.ring| ensures LoadOf(c.ring[j]).None? { assert all[j] == c.ring[j]; }
        forall i | 0 <= i < |c.ring| && i != k && c.ring[i].Load?
          ensures c.ring[i].load.generation < c.ring[k].load.generation
        {
          assert all[i] == c.ring[i];
        }
        assert IsLastAndNewest(c.ring, k);
      }
    } else {
      assert c.ring + Coalesced(c) == c.ring;
    }
  }

  /** In any reachable state with no command left over from an earlier failure, a failed activation
      and a successful one keep what the outstanding commands amount to in everything but the
      model; and they keep the model, outstanding or waiting, exactly under `ModelSurvives`. */
  lemma FailureThenSuccess(c0: Chan, acts: seq<Action>, m: Option<LoadModel>)
    requires Initial(c0) && Runs(c0, acts) && Enabled(After(c0, acts), ActivateFail)
    requires After(c0, acts).cold.staged == [] && Resends(After(c0, acts), m)
    requires After(c0, acts).capacity >= 2 && DistinctModels(After(c0, acts).ring)
    ensures var c := After(c0, acts);
            Runs(c, RecoverySteps(c, m))
            && var d := After(c, RecoverySteps(c, m));
               SameButModel(Eventually(c), Eventually(d)) && d.cold.pendingModel.None?
               && (Intended(c) == Intended(d) <==> ModelSurvives(c))
  {
    StartsRight(c0);
    WhereRun(c0, acts);
    RecoveryMeans(After(c0, acts), m);
  }

  lemma RecoveryMeans(c: Chan, m: Option<LoadModel>)
    requires AckInv(c) && ReplayOnlyActive(c) && Enabled(c, ActivateFail) && c.capacity >= 2
    requires c.cold.staged == [] && Resends(c, m) && DistinctModels(c.ring)
    ensures Runs(c, RecoverySteps(c, m))
    ensures var d := After(c, RecoverySteps(c, m));
            SameButModel(Eventually(c), Eventually(d)) && d.cold.pendingModel.None?
            && (Intended(c) == Intended(d) <==> ModelSurvives(c))
  {
    hide AckInv, ReplayOnlyActive, Enabled, Runs, After, InstallAll, Outstanding, Coalesced, DistinctModels;
    hide LastModelIsNewestLoad, Rollback.NewestModel, Rollback.NonModels, Apply, RecoverySteps, Recovered;
    OutstandingAfterRecovery(c, m);
    SnapshotBringsNoModel(c);
    SnapshotStaysBehind(c, m);
    var ps := c.ring + Coalesced(c);
    var d := After(c, RecoverySteps(c, m));
    InstallAllRespectsMeaning(d.dsp, c.dsp, Recovered(ps, m));
    if m.None? {
      WithoutLoads(ps);
      NothingResent(ps);
    } else {
      OthersSurvive(c.dsp, ps, m.value);
      assert SourceOf(m.value) == SourceOfPending(Rollback.Deferred(m.value));
      if c.cold.pendingModel.None? { RecoveryAgainstPlain(c.dsp, ps, m.value); }
    }
  }

  lemma NothingResent(ps: seq<Payload>)
    ensures Recovered(ps, None) == Rollback.NonModels(ps)
  {}

  /** Two commands in the ring and then a failure: plain order ends with the model of the second, the
      recovery with the model of the load `m`. */
  predicate EndsDiffer(c0: Chan, p: Payload, q: Payload, m: LoadModel)
    requires LoadOf(q).Some?
  {
    var sends := [Send(p), Count] + [Send(q), Count];
    Runs(c0, sends)
    && var c := After(c0, sends);
       c.ring == [p, q] && Runs(c, RecoverySteps(c, Some(m)))
       && SourceOfChain(Eventually(c).chain) == SourceOf(LoadOf(q).value)
       && SourceOfChain(Eventually(After(c, RecoverySteps(c, Some(m)))).chain) == SourceOf(m)
  }

  /** A restore that brings a newer model than the load before it: sent to a plugin whose next
      activation fails, the two end with the older model. */
  lemma OlderModelWins(c0: Chan, a: LoadModel, t: RestoreTxn)
    requires Initial(c0) && c0.capacity >= 2 && t.model.Some? && a.generation < t.model.value.generation
    ensures EndsDiffer(c0, Load(a), Restore(t), a)
  {
    LoadAndRestore(a, t);
    TwoThenFailure(c0, Load(a), Restore(t), a, Restore(t));
  }

  /** A load prepared in the background is sent with the generation it got when it was asked for,
      behind a newer load: plain order ends with the late one, the recovery with the newer one. */
  lemma NewerModelReturns(c0: Chan, a: LoadModel, b: LoadModel)
    requires Initial(c0) && c0.capacity >= 2 && b.generation < a.generation
    ensures EndsDiffer(c0, Load(a), Load(b), a)
    ensures !LastModelIsNewestLoad([Load(a), Load(b)])
  {
    LoadAndLoad(a, b);
    TwoThenFailure(c0, Load(a), Load(b), a, Load(a));
    var ps := [Load(a), Load(b)];
    assert ps[0] == Load(a) && LoadOf(ps[1]).Some?;
  }

  lemma TwoThenFailure(c0: Chan, p: Payload, q: Payload, m: LoadModel, first: Payload)
    requires Initial(c0) && c0.capacity >= 2 && LoadOf(q).Some?
    requires Rollback.NewestModel([p, q]) == Some(Rollback.Deferred(m))
    requires Recovered([p, q], Some(m)) == [first, Load(m)] || Recovered([p, q], Some(m)) == [Load(m)]
    ensures EndsDiffer(c0, p, q, m)
  {
    hide AckInv, Apply, Enabled, Runs, After, InstallAll, RecoverySteps, Rollback.NewestModel, Recovered;
    StartsRight(c0);
    var one, two := [Send(p), Count], [Send(q), Count];
    var c1 := SentAndCounted(c0, p);
    var c := SentAndCounted(c1, q);
    RunsConcat(c0, one, two);
    RunIsMonotone(c0, one + two);
    assert c.ring == [p, q] && Coalesced(c) == [];
    MayRollBack(c);
    OutstandingAfterRecovery(c, Some(m));
    assert c.ring + Coalesced(c) == c.ring;
    var d := After(c, RecoverySteps(c, Some(m)));
    LastWriterOfTwo(p, q, c.dsp);
    LastWriterOfTwo(first, Load(m), d.dsp);
    OnlyWriter(m, d.dsp);
  }

  lemma OnlyWriter(m: LoadModel, d: Dsp)
    ensures SourceOfChain(InstallAll(d, [Load(m)]).chain) == SourceOf(m)
  {
    hide InstallAll, LastParams, LastIr, LastEngines, LastRestore;
    InstallationIsLastWrites(d, [Load(m)]);
  }

  lemma LastWriterOfTwo(p: Payload, q: Payload, d: Dsp)
    requires LoadOf(q).Some?
    ensures SourceOfChain(InstallAll(d, [p, q]).chain) == SourceOf(LoadOf(q).value)
  {
    hide InstallAll, LastParams, LastIr, LastEngines, LastRestore;
    InstallationIsLastWrites(d, [p, q]);
  }

  lemma LoadAndRestore(a: LoadModel, t: RestoreTxn)
    ensures Rollback.NewestModel([Load(a), Restore(t)]) == Some(Rollback.Deferred(a))
    ensures Recovered([Load(a), Restore(t)], Some(a)) == [Restore(t), Load(a)]
  {
    var one, two := [Load(a)], [Load(a), Restore(t)];
    assert one[..0] == [] && two[..1] == one;
    assert Rollback.NewestModel(one) == Some(Rollback.Deferred(a)) && Rollback.NonModels(one) == [];
    assert Rollback.NewestModel(two) == Rollback.NewestModel(two[..1]);
    assert Rollback.NonModels(two) == Rollback.NonModels(two[..1]) + [Restore(t)];
  }

  lemma LoadAndLoad(a: LoadModel, b: LoadModel)
    requires b.generation < a.generation
    ensures Rollback.NewestModel([Load(a), Load(b)]) == Some(Rollback.Deferred(a))
    ensures Recovered([Load(a), Load(b)], Some(a)) == [Load(a)]
  {
    var one, two := [Load(a)], [Load(a), Load(b)];
    assert one[..0] == [] && two[..1] == one;
    assert Rollback.NewestModel(one) == Some(Rollback.Deferred(a)) && Rollback.NonModels(one) == [];
    assert Rollback.NewestModel(two) == Rollback.Newer(Rollback.NewestModel(two[..1]), Rollback.Deferred(b));
    assert Rollback.NonModels(two) == Rollback.NonModels(two[..1]);
  }
}
