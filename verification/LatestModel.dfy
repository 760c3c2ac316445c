/** Which of the models the main thread hands over is the one that runs in the end.  A load that
    finds the ring full waits in the pending slot; a later load that finds room goes past it, and
    when the waiting one is sent after all it lands last. */
module LatestModel {
  import opened Options
  import opened Payloads
  import opened SwapDomain
  import opened Channel
  import opened ChannelReplay
  import opened ChannelMeaning
  import opened FinalState
  import Recovery
  import Rollback

  /** The commands on their way to the processor, oldest first. */
  function OnTheWay(c: Chan): seq<Payload> { c.rt.recovered + Waiting(c) }

  function GenerationAfter(g: nat, ps: seq<Payload>): nat {
    if LastLoad(ps).Some? then LastLoad(ps).value.generation else g
  }

  /** The generation of the model that runs once all commands on their way are installed and the
      waiting model has been sent. */
  function FinalGeneration(c: Chan): nat {
    if c.cold.pendingModel.Some? then c.cold.pendingModel.value.generation
    else GenerationAfter(c.dsp.chain.generation, OnTheWay(c))
  }

  /** A model handed over, and whether it was sent past a waiting one. */
  datatype Handover = Handover(generation: nat, past: bool)

  function HandedBy(c: Chan, a: Action): seq<Handover> {
    match a
    case Send(cmd) =>
      if LoadOf(cmd).Some? then [Handover(LoadOf(cmd).value.generation, c.cold.pendingModel.Some?)] else []
    case Defer(m) => [Handover(m.generation, false)]
    case _ => []
  }

  function HandedOver(c: Chan, acts: seq<Action>): seq<Handover>
    requires Runs(c, acts)
    decreases |acts|
  {
    if acts == [] then [] else HandedBy(c, acts[0]) + HandedOver(Apply(c, acts[0]), acts[1..])
  }

  /** The last one that was not sent past a waiting model, or else the generation before. */
  function Winner(hs: seq<Handover>, g: nat): nat {
    if hs == [] then g
    else if !hs[|hs| - 1].past then hs[|hs| - 1].generation
    else Winner(hs[..|hs| - 1], g)
  }

  lemma {:induction false} WinnerConcat(a: seq<Handover>, b: seq<Handover>, g: nat)
    ensures Winner(a + b, g) == Winner(b, Winner(a, g))
  {
    if b == [] {
      assert a + b == a;
    } else {
      var n := |b| - 1;
      assert (a + b)[..|a| + n] == a + b[..n];
      WinnerConcat(a, b[..n], g);
    }
  }

  // ---------- command sequences ----------

  lemma GenerationAppend(g: nat, ps: seq<Payload>, p: Payload)
    ensures GenerationAfter(g, ps + [p])
            == if LoadOf(p).Some? then LoadOf(p).value.generation else GenerationAfter(g, ps)
  {
    assert (ps + [p])[..|ps|] == ps;
  }

  lemma {:induction false} GenerationConcat(g: nat, a: seq<Payload>, b: seq<Payload>)
    ensures GenerationAfter(g, a + b) == GenerationAfter(GenerationAfter(g, a), b)
  {
    hide LoadOf;
    if b == [] {
      assert a + b == a;
    } else {
      var n := |b| - 1;
      assert (a + b)[..|a| + n] == a + b[..n] && a + b == (a + b[..n]) + [b[n]];
      GenerationConcat(g, a, b[..n]);
    }
  }

  lemma GenerationFirst(g: nat, p: Payload, rest: seq<Payload>)
    ensures GenerationAfter(g, [p] + rest)
            == GenerationAfter(if LoadOf(p).Some? then LoadOf(p).value.generation else g, rest)
  {
    GenerationConcat(g, [p], rest);
    GenerationAppend(g, [], p);
    assert [] + [p] == [p];
  }

  lemma InstalledGeneration(d: Dsp, p: Payload)
    ensures Install(d, p).chain.generation
            == if LoadOf(p).Some? then LoadOf(p).value.generation else d.chain.generation
  {
    hide Install;
    InstallWrites(d, p);
  }

  lemma InstalledGenerations(d: Dsp, ps: seq<Payload>)
    ensures InstallAll(d, ps).chain.generation == GenerationAfter(d.chain.generation, ps)
  {
    hide InstallAll, LatencyConsistent;
    InstallationIsLastWrites(d, ps);
  }

  // ---------- steps within an activation ----------

  predicate Within(a: Action) { !a.ActivateOk? && !a.ActivateFail? && !a.Deactivate? }

  /** A send or a deferral decides what runs in the end, unless it goes past a waiting model. */
  lemma FinalStep(c: Chan, a: Action)
    requires AckInv(c) && Enabled(c, a) && Within(a)
    ensures FinalGeneration(Apply(c, a)) == Winner(HandedBy(c, a), FinalGeneration(c))
  {
    hide AckInv, Enabled, Apply, FinalGeneration, Winner, HandedBy;
    match a {
      case Flush => FinalDelivered(c, a);
      case Send(_) => FinalDelivered(c, a);
      case FlushModel(_) => FinalFlushed(c, a.load);
      case Defer(_) => FinalDeferred(c, a.model);
      case PopLight => FinalInstalled(c, a);
      case InstallSlot => FinalInstalled(c, a);
      case Supersede => FinalSuperseded(c);
      case Replay => FinalReplayed(c);
      case _ => FinalElsewhere(c, a);
    }
  }

  lemma NothingHanded(c: Chan, a: Action)
    requires !a.Send? && !a.Defer?
    ensures HandedBy(c, a) == [] && forall g :: Winner(HandedBy(c, a), g) == g
  {}

  lemma FinalDelivered(c: Chan, a: Action)
    requires Enabled(c, a) && (a.Flush? || a.Send?)
    ensures FinalGeneration(Apply(c, a)) == Winner(HandedBy(c, a), FinalGeneration(c))
  {
    hide LastLoad, GenerationAfter;
    var p := if a.Flush? then ParamsUpdate(c.main.pending.value) else a.cmd;
    GenerationAppend(c.dsp.chain.generation, OnTheWay(c), p);
    assert OnTheWay(Apply(c, a)) == OnTheWay(c) + [p];
  }

  lemma FinalFlushed(c: Chan, m: LoadModel)
    requires Enabled(c, FlushModel(m))
    ensures FinalGeneration(Apply(c, FlushModel(m))) == Winner(HandedBy(c, FlushModel(m)), FinalGeneration(c))
  {
    hide LastLoad, GenerationAfter;
    GenerationAppend(c.dsp.chain.generation, OnTheWay(c), Load(m));
    assert OnTheWay(Apply(c, FlushModel(m))) == OnTheWay(c) + [Load(m)];
  }

  lemma FinalDeferred(c: Chan, m: Rollback.PendingModel)
    requires Enabled(c, Defer(m))
    ensures FinalGeneration(Apply(c, Defer(m))) == Winner(HandedBy(c, Defer(m)), FinalGeneration(c))
  {}

  lemma FinalInstalled(c: Chan, a: Action)
    requires AckInv(c) && Enabled(c, a) && (a.PopLight? || a.InstallSlot?)
    ensures FinalGeneration(Apply(c, a)) == Winner(HandedBy(c, a), FinalGeneration(c))
  {
    hide LastLoad, GenerationAfter, Install, HandedBy, Winner;
    NothingHanded(c, a);
    var p := if a.PopLight? then c.ring[0] else c.rt.slot.p;
    InstalledGeneration(c.dsp, p);
    GenerationFirst(c.dsp.chain.generation, p, OnTheWay(Apply(c, a)));
    assert OnTheWay(c) == [p] + OnTheWay(Apply(c, a));
  }

  lemma FinalSuperseded(c: Chan)
    requires AckInv(c) && Enabled(c, Supersede)
    ensures FinalGeneration(Apply(c, Supersede)) == Winner(HandedBy(c, Supersede), FinalGeneration(c))
  {
    hide GenerationAfter, HandedBy, Winner, Apply, OnTheWay, SameKey, AckInv;
    NothingHanded(c, Supersede);
    SupersededLeaves(c);
    SuccessorDecides(c.dsp.chain.generation, c.rt.slot.p, c.ring);
  }

  lemma SupersededLeaves(c: Chan)
    requires AckInv(c) && Enabled(c, Supersede)
    ensures var d := Apply(c, Supersede);
            OnTheWay(c) == [c.rt.slot.p] + c.ring && OnTheWay(d) == c.ring && d.cold.pendingModel == c.cold.pendingModel
            && d.dsp.chain.generation == c.dsp.chain.generation
  {
    hide SameKey, Items;
  }

  /** Of two commands of one kind in a row only the second decides. */
  lemma SuccessorDecides(g: nat, p: Payload, rest: seq<Payload>)
    requires rest != [] && SameKey(p, rest[0])
    ensures GenerationAfter(g, [p] + rest) == GenerationAfter(g, rest)
  {
    hide GenerationAfter;
    GenerationFirst(g, p, rest);
    GenerationFirst(g, rest[0], rest[1..]);
    GenerationFirst(if LoadOf(p).Some? then LoadOf(p).value.generation else g, rest[0], rest[1..]);
    assert [rest[0]] + rest[1..] == rest;
  }

  lemma FinalReplayed(c: Chan)
    requires Enabled(c, Replay)
    ensures FinalGeneration(Apply(c, Replay)) == Winner(HandedBy(c, Replay), FinalGeneration(c))
  {
    hide LastLoad, GenerationAfter, HandedBy, Winner, InstallAll;
    NothingHanded(c, Replay);
    InstalledGenerations(c.dsp, c.rt.recovered);
    GenerationConcat(c.dsp.chain.generation, c.rt.recovered, Waiting(c));
    assert OnTheWay(Apply(c, Replay)) == Waiting(c);
  }

  lemma FinalElsewhere(c: Chan, a: Action)
    requires Enabled(c, a) && Within(a)
    requires !a.Flush? && !a.Send? && !a.FlushModel? && !a.Defer?
    requires !a.PopLight? && !a.InstallSlot? && !a.Supersede? && !a.Replay?
    ensures FinalGeneration(Apply(c, a)) == Winner(HandedBy(c, a), FinalGeneration(c))
  {
    hide LastLoad, GenerationAfter, HandedBy, Winner, Apply, Enabled, OnTheWay;
    NothingHanded(c, a);
    SameWay(c, a);
  }

  lemma SameWay(c: Chan, a: Action)
    requires Enabled(c, a) && Within(a)
    requires !a.Flush? && !a.Send? && !a.FlushModel? && !a.Defer?
    requires !a.PopLight? && !a.InstallSlot? && !a.Supersede? && !a.Replay?
    ensures var d := Apply(c, a);
            OnTheWay(d) == OnTheWay(c) && d.cold.pendingModel == c.cold.pendingModel
            && d.dsp.chain.generation == c.dsp.chain.generation
  {
    hide Adjusted, FinishCallback, RetireRebuild;
    HandlersLeaveGeneration(c.dsp);
    if a.PopToHand? { PopKeepsOrder(c); }
  }

  lemma HandlersLeaveGeneration(d: Dsp)
    ensures FinishCallback(d).chain == d.chain
    ensures forall e :: Adjusted(d, e).chain == d.chain
    ensures forall r :: RetireRebuild(d, r).chain == d.chain
  {
    hide Adjusted;
    forall e ensures Adjusted(d, e).chain == d.chain { AdjustedKeeps(d, e); }
  }

  // ---------- runs ----------

  predicate WithinRun(acts: seq<Action>) { forall i :: 0 <= i < |acts| ==> Within(acts[i]) }

  /** Over every run within an activation, with any drain schedule, rebuilds, flushes and failed
      pushes: the model that runs in the end is the last one handed over that was not sent past a
      waiting one. */
  lemma {:induction false} WinnerRuns(c: Chan, acts: seq<Action>)
    requires AckInv(c) && Runs(c, acts) && WithinRun(acts)
    ensures FinalGeneration(After(c, acts)) == Winner(HandedOver(c, acts), FinalGeneration(c))
    decreases |acts|
  {
    hide AckInv, Enabled, Apply, FinalGeneration, HandedBy;
    if acts != [] {
      AckStep(c, acts[0]);
      FinalStep(c, acts[0]);
      WinnerRuns(Apply(c, acts[0]), acts[1..]);
      WinnerConcat(HandedBy(c, acts[0]), HandedOver(Apply(c, acts[0]), acts[1..]), FinalGeneration(c));
    }
  }

  /** The `k`-th handover has the newest generation of all. */
  predicate IsNewestHandover(hs: seq<Handover>, k: nat) {
    k < |hs| && forall i :: 0 <= i < |hs| && i != k ==> hs[i].generation < hs[k].generation
  }

  lemma {:induction false} WinnerIsNewest(hs: seq<Handover>, k: nat, g: nat)
    requires IsNewestHandover(hs, k) && g < hs[k].generation
    ensures Winner(hs, g) == hs[k].generation
            <==> !hs[k].past && forall i :: k < i < |hs| ==> hs[i].past
  {
    var n := |hs| - 1;
    if k == n {
      if hs[n].past { OlderWins(hs[..n], g, hs[k].generation); }
    } else if hs[n].past {
      WinnerIsNewest(hs[..n], k, g);
    }
  }

  lemma {:induction false} OlderWins(hs: seq<Handover>, g: nat, bound: nat)
    requires g < bound && forall i :: 0 <= i < |hs| ==> hs[i].generation < bound
    ensures Winner(hs, g) < bound
  {
    if hs != [] { OlderWins(hs[..|hs| - 1], g, bound); }
  }

  /** The newest model handed over in a run survives if and only if it was not sent past a waiting
      model and every later one was. */
  lemma NewestSurvives(c: Chan, acts: seq<Action>, k: nat)
    requires AckInv(c) && Runs(c, acts) && WithinRun(acts)
    requires IsNewestHandover(HandedOver(c, acts), k) && FinalGeneration(c) < HandedOver(c, acts)[k].generation
    ensures var hs := HandedOver(c, acts);
            FinalGeneration(After(c, acts)) == hs[k].generation
            <==> !hs[k].past && forall i :: k < i < |hs| ==> hs[i].past
  {
    WinnerRuns(c, acts);
    WinnerIsNewest(HandedOver(c, acts), k, FinalGeneration(c));
  }

  /** When nothing waits and nothing is on its way, the winner is what runs. */
  lemma WinnerIsRunning(c: Chan, acts: seq<Action>)
    requires AckInv(c) && Runs(c, acts) && WithinRun(acts)
    requires OnTheWay(After(c, acts)) == [] && After(c, acts).cold.pendingModel.None?
    ensures After(c, acts).dsp.chain.generation == Winner(HandedOver(c, acts), FinalGeneration(c))
  {
    WinnerRuns(c, acts);
  }

  /** The generation of the model `Recovery` calls intended, so both speak of the same model. */
  lemma FinalIsIntended(c: Chan)
    ensures FinalGeneration(c) == Recovery.Intended(c).generation
  {
    hide GenerationAfter, LastLoad, InstallAll;
    InstalledGenerations(c.dsp, Outstanding(c));
    if c.main.pending.Some? {
      assert Outstanding(c) == OnTheWay(c) + [ParamsUpdate(c.main.pending.value)];
      GenerationAppend(c.dsp.chain.generation, OnTheWay(c), ParamsUpdate(c.main.pending.value));
    } else {
      assert Outstanding(c) == OnTheWay(c);
    }
  }

  // ---------- a newer load overtaken ----------

  const INSTALL: seq<Action> := [BeginCallback, PopToHand, InstallSlot, EndCallback]

  lemma LoadPopped(c: Chan, m: LoadModel)
    requires c.active && !c.rt.inside && c.rt.recovered == [] && c.rt.slot.Empty? && c.ring == [Load(m)]
    ensures Runs(c, [BeginCallback, PopToHand])
    ensures var d := After(c, [BeginCallback, PopToHand]);
            d.active && d.rt.inside && d.rt.recovered == [] && d.rt.slot == InHand(Load(m)) && d.rt.budget == 1
            && d.ring == [] && d.main == c.main && d.cold == c.cold && d.capacity == c.capacity
  {
    TwoSteps(c, BeginCallback, PopToHand);
  }

  lemma HeldInstalled(c: Chan, m: LoadModel)
    requires c.active && c.rt.inside && c.rt.recovered == [] && c.rt.slot == InHand(Load(m)) && c.rt.budget == 1
    ensures Runs(c, [InstallSlot, EndCallback])
    ensures var d := After(c, [InstallSlot, EndCallback]);
            d.active && !d.rt.inside && d.rt.recovered == [] && d.rt.slot.Empty? && d.ring == c.ring
            && d.dsp.chain.generation == m.generation && d.main == c.main && d.cold.pendingModel == c.cold.pendingModel
            && d.capacity == c.capacity
  {
    hide Install, FinishCallback;
    InstalledGeneration(c.dsp, Load(m));
    HandlersLeaveGeneration(Apply(c, InstallSlot).dsp);
    TwoSteps(c, InstallSlot, EndCallback);
  }

  /** One callback with one load in the ring. */
  lemma LoadInstalled(c: Chan, m: LoadModel)
    requires c.active && !c.rt.inside && c.rt.recovered == [] && c.rt.slot.Empty? && c.ring == [Load(m)]
    ensures Runs(c, INSTALL)
    ensures var d := After(c, INSTALL);
            d.active && !d.rt.inside && d.rt.recovered == [] && d.rt.slot.Empty? && d.ring == []
            && d.dsp.chain.generation == m.generation && d.main == c.main && d.cold.pendingModel == c.cold.pendingModel
            && d.capacity == c.capacity
  {
    hide Runs, After;
    LoadPopped(c, m);
    HeldInstalled(After(c, [BeginCallback, PopToHand]), m);
    RunsConcat(c, [BeginCallback, PopToHand], [InstallSlot, EndCallback]);
    assert INSTALL == [BeginCallback, PopToHand] + [InstallSlot, EndCallback];
  }

  /** A load is deferred on a full ring, a newer one is sent once there is room, and the deferred one
      is sent after it: the older of the two runs in the end. */
  lemma DeferredModelWins(c0: Chan, a: LoadModel, p: LoadModel, b: LoadModel)
    requires Initial(c0) && c0.capacity == 1 && p.generation < b.generation
    ensures var acts := [ActivateOk] + [Send(Load(a)), Count]
                        + ([Defer(Rollback.Deferred(p))] + INSTALL + [Send(Load(b)), Count] + INSTALL
                           + [FlushModel(p), Count] + INSTALL);
            Runs(c0, acts)
            && var d := After(c0, acts);
               d.ring == [] && d.cold.pendingModel.None? && d.rt.slot.Empty?
               && d.dsp.chain.generation == p.generation < b.generation
  {
    hide Runs, After, INSTALL;
    var c1 := Activating(c0);
    var c2 := Sending(c1, a);
    RunsConcat(c0, [ActivateOk], [Send(Load(a)), Count]);
    DeferredThenSent(c2, a, p, b);
    RunsConcat(c0, [ActivateOk] + [Send(Load(a)), Count],
               [Defer(Rollback.Deferred(p))] + INSTALL + [Send(Load(b)), Count] + INSTALL
               + [FlushModel(p), Count] + INSTALL);
  }

  lemma Activating(c0: Chan) returns (d: Chan)
    requires Initial(c0)
    ensures Runs(c0, [ActivateOk]) && d == After(c0, [ActivateOk])
    ensures d.active && !d.rt.inside && d.rt.recovered == [] && d.rt.slot.Empty? && d.ring == []
    ensures d.capacity == c0.capacity && d.main == c0.main
  {
    Extend(c0, [], ActivateOk);
    assert [] + [ActivateOk] == [ActivateOk];
    d := Apply(c0, ActivateOk);
  }

  lemma DeferredThenSent(c: Chan, a: LoadModel, p: LoadModel, b: LoadModel)
    requires c.active && !c.rt.inside && c.rt.recovered == [] && c.rt.slot.Empty? && c.ring == [Load(a)]
    requires c.capacity == 1 && c.main.uncounted == 0 && c.main.pending.None?
    requires p.generation < b.generation
    ensures var acts := [Defer(Rollback.Deferred(p))] + INSTALL + [Send(Load(b)), Count] + INSTALL
                        + [FlushModel(p), Count] + INSTALL;
            Runs(c, acts)
            && var d := After(c, acts);
               d.ring == [] && d.cold.pendingModel.None? && d.rt.slot.Empty?
               && d.dsp.chain.generation == p.generation < b.generation
  {
    hide Runs, After, INSTALL;
    var c1 := Deferring(c, Rollback.Deferred(p));
    var s1 := [Defer(Rollback.Deferred(p))];
    LoadInstalled(c1, a);
    var c2 := After(c1, INSTALL);
    RunsConcat(c, s1, INSTALL);
    var c3 := Sending(c2, b);
    RunsConcat(c, s1 + INSTALL, [Send(Load(b)), Count]);
    LoadInstalled(c3, b);
    var c4 := After(c3, INSTALL);
    var s3 := s1 + INSTALL + [Send(Load(b)), Count];
    RunsConcat(c, s3, INSTALL);
    var c5 := Flushing(c4, p);
    RunsConcat(c, s3 + INSTALL, [FlushModel(p), Count]);
    LoadInstalled(c5, p);
    RunsConcat(c, s3 + INSTALL + [FlushModel(p), Count], INSTALL);
  }

  /** Equal but for the ring, the pending slot, the count and the history. */
  predicate SameAudio(c: Chan, d: Chan) {
    (d.active, d.rt, d.dsp, d.capacity, d.slim) == (c.active, c.rt, c.dsp, c.capacity, c.slim)
    && d.main.pending.None? && d.main.uncounted == 0
  }

  lemma Deferring(c: Chan, m: Rollback.PendingModel) returns (d: Chan)
    requires |c.ring| >= c.capacity && c.main.uncounted == 0 && c.main.pending.None?
    ensures Runs(c, [Defer(m)]) && d == After(c, [Defer(m)])
    ensures SameAudio(c, d) && d.ring == c.ring && d.cold.pendingModel == Some(m)
  {
    Extend(c, [], Defer(m));
    assert [] + [Defer(m)] == [Defer(m)];
    d := Apply(c, Defer(m));
  }

  lemma Sending(c: Chan, m: LoadModel) returns (d: Chan)
    requires |c.ring| < c.capacity && c.main.uncounted == 0 && c.main.pending.None?
    ensures Runs(c, [Send(Load(m)), Count]) && d == After(c, [Send(Load(m)), Count])
    ensures SameAudio(c, d) && d.ring == c.ring + [Load(m)] && d.cold.pendingModel == c.cold.pendingModel
  {
    TwoSteps(c, Send(Load(m)), Count);
    d := Apply(Apply(c, Send(Load(m))), Count);
  }

  lemma Flushing(c: Chan, m: LoadModel) returns (d: Chan)
    requires |c.ring| < c.capacity && c.main.uncounted == 0 && c.main.pending.None?
    requires c.cold.pendingModel == Some(Rollback.Deferred(m))
    ensures Runs(c, [FlushModel(m), Count]) && d == After(c, [FlushModel(m), Count])
    ensures SameAudio(c, d) && d.ring == c.ring + [Load(m)] && d.cold.pendingModel.None?
  {
    TwoSteps(c, FlushModel(m), Count);
    d := Apply(Apply(c, FlushModel(m)), Count);
  }
}
