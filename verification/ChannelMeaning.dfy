/** Coalescing, parking, budgeting and supersession do not change what a command
    sequence means: within an activation, every schedule ends where plain in-order
    installation of everything the main thread asked for ends. */
module ChannelMeaning {
  import opened Options
  import opened Payloads
  import opened SwapDomain
  import opened Channel

  /** The steps of the command channel proper. */
  predicate CommandKind(a: Action) {
    a.PushParams? || a.Flush? || a.Send? || a.Defer? || a.FlushModel? || a.Count? || a.Replay? || a.BeginCallback?
    || a.PopLight? || a.PopToHand? || a.Supersede? || a.InstallSlot? || a.Park? || a.EndCallback?
  }

  /** ... where supersession happens only when latest-wins is exact. */
  predicate CommandStep(c: Chan, a: Action)
    requires Enabled(c, a)
  {
    CommandKind(a) && (a.Supersede? ==> MaySupersede(c.dsp, c.rt.slot.p, c.ring[0]))
  }

  predicate CommandRun(c: Chan, acts: seq<Action>)
    requires Runs(c, acts)
    decreases |acts|
  {
    acts == [] || (CommandStep(c, acts[0]) && CommandRun(Apply(c, acts[0]), acts[1..]))
  }

  function Coalesced(c: Chan): seq<Payload> {
    if c.main.pending.Some? then [ParamsUpdate(c.main.pending.value)] else []
  }

  /** Everything asked for and not yet installed, oldest first. */
  function Outstanding(c: Chan): seq<Payload> {
    c.rt.recovered + (Waiting(c) + Coalesced(c))
  }

  /** The DSP state once everything outstanding is installed in order. */
  function Eventually(c: Chan): Dsp { InstallAll(c.dsp, Outstanding(c)) }

  /** What one step asks for. */
  function Asked(a: Action): seq<Payload> {
    match a
    case PushParams(p) => [ParamsUpdate(p)]
    case Send(cmd) => [cmd]
    case FlushModel(m) => [Load(m)]
    case _ => []
  }

  lemma {:induction false} InstallAllKeepsLatency(d: Dsp, ps: seq<Payload>)
    requires LatencyConsistent(d)
    ensures LatencyConsistent(InstallAll(d, ps))
    decreases |ps|
  {
    hide LatencyConsistent, Install;
    if ps != [] {
      InstallKeepsLatency(d, ps[0]);
      InstallAllKeepsLatency(Install(d, ps[0]), ps[1..]);
    }
  }

  lemma StepKeepsLatency(c: Chan, a: Action)
    requires LatencyConsistent(c.dsp) && Enabled(c, a) && CommandKind(a)
    ensures LatencyConsistent(Apply(c, a).dsp)
  {
    hide Install, InstallAll, LatencyConsistent, Discard, FinishCallback;
    if a.Replay? { InstallAllKeepsLatency(c.dsp, c.rt.recovered); }
    else if a.PopLight? { InstallKeepsLatency(c.dsp, c.ring[0]); }
    else if a.InstallSlot? { InstallKeepsLatency(c.dsp, c.rt.slot.p); }
    else { HandlersKeepLatency(c.dsp); }
  }

  lemma HandlersKeepLatency(d: Dsp)
    requires LatencyConsistent(d)
    ensures LatencyConsistent(FinishCallback(d)) && forall p :: LatencyConsistent(Discard(d, p))
  {
    hide Items;
  }

  lemma FirstInstalled(d: Dsp, p: Payload, rest: seq<Payload>)
    ensures InstallAll(d, [p] + rest) == InstallAll(Install(d, p), rest)
  {
    assert ([p] + rest)[1..] == rest;
  }

  lemma LastInstalled(d: Dsp, ps: seq<Payload>, p: Payload)
    ensures InstallAll(d, ps + [p]) == Install(InstallAll(d, ps), p)
  {
    InstallAllAppend(d, ps, [p]);
    assert InstallAll(InstallAll(d, ps), [p]) == InstallAll(Install(InstallAll(d, ps), p), [p][1..]);
    assert [p][1..] == [];
  }

  lemma InstallNone(d: Dsp)
    ensures InstallAll(d, []) == d
  {}

  lemma InstallOne(d: Dsp, p: Payload)
    ensures InstallAll(d, [p]) == Install(d, p)
  {
    LastInstalled(d, [], p);
    assert [] + [p] == [p];
  }

  /** A snapshot overwrites the coalesced one without changing the meaning. */
  lemma PushMeans(c: Chan, p: Params)
    ensures Same(Eventually(Apply(c, PushParams(p))), Install(Eventually(c), ParamsUpdate(p)))
  {
    var base := c.rt.recovered + Waiting(c);
    var x := InstallAll(c.dsp, base);
    var d := Apply(c, PushParams(p));
    assert Outstanding(d) == base + [ParamsUpdate(p)];
    LastInstalled(c.dsp, base, ParamsUpdate(p));
    if c.main.pending.Some? {
      var q := c.main.pending.value;
      assert Outstanding(c) == base + [ParamsUpdate(q)];
      LastInstalled(c.dsp, base, ParamsUpdate(q));
      SnapshotHidesSnapshot(x, q, p);
    } else {
      assert Outstanding(c) == base;
    }
  }

  lemma SendMeans(c: Chan, cmd: Payload)
    requires Enabled(c, Send(cmd))
    ensures Eventually(Apply(c, Send(cmd))) == Install(Eventually(c), cmd)
  {
    assert Outstanding(Apply(c, Send(cmd))) == Outstanding(c) + [cmd];
    LastInstalled(c.dsp, Outstanding(c), cmd);
  }

  lemma FlushModelMeans(c: Chan, m: LoadModel)
    requires Enabled(c, FlushModel(m))
    ensures Eventually(Apply(c, FlushModel(m))) == Install(Eventually(c), Load(m))
  {
    assert Outstanding(Apply(c, FlushModel(m))) == Outstanding(c) + [Load(m)];
    LastInstalled(c.dsp, Outstanding(c), Load(m));
  }

  lemma OldestIsInstalled(c: Chan, a: Action)
    requires AckInv(c) && Enabled(c, a) && (a.PopLight? || a.InstallSlot?)
    ensures var p := if a.PopLight? then c.ring[0] else c.rt.slot.p;
            Outstanding(c) == [p] + Outstanding(Apply(c, a)) && Apply(c, a).dsp == Install(c.dsp, p)
  {
    hide Install, Waiting, AckInv;
    NothingToReplay(c, a);
    ResolvedWaiting(c, a);
    FirstWaits(c, a);
    InstallsFirst(c, a);
  }

  lemma NothingToReplay(c: Chan, a: Action)
    requires AckInv(c) && Enabled(c, a) && (a.PopLight? || a.InstallSlot?)
    ensures c.rt.recovered == [] == Apply(c, a).rt.recovered && Coalesced(Apply(c, a)) == Coalesced(c)
  {
    hide Install;
  }

  lemma FirstWaits(c: Chan, a: Action)
    requires Enabled(c, a) && (a.PopLight? || a.InstallSlot?)
    ensures Waiting(c) != [] && Waiting(c)[0] == if a.PopLight? then c.ring[0] else c.rt.slot.p
  {}

  lemma InstallsFirst(c: Chan, a: Action)
    requires Enabled(c, a) && (a.PopLight? || a.InstallSlot?)
    ensures Apply(c, a).dsp == Install(c.dsp, if a.PopLight? then c.ring[0] else c.rt.slot.p)
  {
    hide Install;
  }

  /** Installing the oldest waiting command is what plain order would do next. */
  lemma InstallMeans(c: Chan, a: Action)
    requires AckInv(c) && Enabled(c, a) && (a.PopLight? || a.InstallSlot?)
    ensures Eventually(Apply(c, a)) == Eventually(c)
  {
    OldestIsInstalled(c, a);
    FirstInstalled(c.dsp, if a.PopLight? then c.ring[0] else c.rt.slot.p, Outstanding(Apply(c, a)));
    hide Install, InstallAll, Apply, AckInv, Outstanding;
  }

  /** Discarding a command whose successor has the same kind. */
  lemma SupersedeMeans(c: Chan)
    requires AckInv(c) && LatencyConsistent(c.dsp) && Enabled(c, Supersede) && CommandStep(c, Supersede)
    ensures Same(Eventually(Apply(c, Supersede)), Eventually(c))
  {
    hide Install, InstallAll, Discard, SameKey, Same, Accepts, MaySupersede, LatencyConsistent;
    var older, newer := c.rt.slot.p, c.ring[0];
    var d := Apply(c, Supersede);
    var rest := c.ring[1..] + Coalesced(c);
    assert Outstanding(c) == [older] + ([newer] + rest);
    assert Outstanding(d) == [newer] + rest;
    FirstInstalled(c.dsp, older, [newer] + rest);
    FirstInstalled(Install(c.dsp, older), newer, rest);
    FirstInstalled(d.dsp, newer, rest);
    SupersessionIsExact(c.dsp, older, newer);
    InstallAllRespectsMeaning(Install(Discard(c.dsp, older), newer), Install(Install(c.dsp, older), newer), rest);
  }

  /** One step: the eventual state gains exactly what the step asked for. */
  lemma StepMeans(c: Chan, a: Action)
    requires AckInv(c) && LatencyConsistent(c.dsp) && Enabled(c, a) && CommandStep(c, a)
    ensures Same(Eventually(Apply(c, a)), InstallAll(Eventually(c), Asked(a)))
  {
    hide Install, InstallAll, Apply, AckInv, LatencyConsistent, Outstanding;
    InstallNone(Eventually(c));
    match a {
      case PushParams(p) =>
        PushMeans(c, p);
        InstallOne(Eventually(c), ParamsUpdate(p));
      case Send(cmd) =>
        SendMeans(c, cmd);
        InstallOne(Eventually(c), cmd);
      case FlushModel(m) =>
        FlushModelMeans(c, m);
        InstallOne(Eventually(c), Load(m));
      case PopLight => InstallMeans(c, a);
      case InstallSlot => InstallMeans(c, a);
      case Supersede => SupersedeMeans(c);
      case Replay => ReplayMeans(c);
      case EndCallback =>
        FinishMeans(c);
        InstallAllRespectsMeaning(Apply(c, a).dsp, c.dsp, Outstanding(c));
      case _ => QuietMeans(c, a);
    }
  }

  lemma FinishMeans(c: Chan)
    requires Enabled(c, EndCallback)
    ensures Outstanding(Apply(c, EndCallback)) == Outstanding(c) && Same(Apply(c, EndCallback).dsp, c.dsp)
  {}

  lemma QuietMeans(c: Chan, a: Action)
    requires Enabled(c, a)
    requires a.Flush? || a.Defer? || a.Count? || a.BeginCallback? || a.PopToHand? || a.Park?
    ensures Outstanding(Apply(c, a)) == Outstanding(c) && Apply(c, a).dsp == c.dsp
  {
    if a.PopToHand? { PopKeepsOrder(c); }
  }

  lemma ReplayMeans(c: Chan)
    requires Enabled(c, Replay)
    ensures Eventually(Apply(c, Replay)) == Eventually(c)
  {
    InstallAllAppend(c.dsp, c.rt.recovered, Waiting(c) + Coalesced(c));
    assert Outstanding(Apply(c, Replay)) == Waiting(c) + Coalesced(c);
  }

  function AskedAll(acts: seq<Action>): seq<Payload>
    decreases |acts|
  {
    if acts == [] then [] else Asked(acts[0]) + AskedAll(acts[1..])
  }

  /** Main result.  For every run of producer and drain, with any interleaving, parking,
      budget decisions, coalesced snapshots, failed flushes and supersessions: installing
      what is still outstanding gives the state, and the retired resources, of installing
      in plain order everything the main thread asked for. */
  lemma {:induction false} ScheduleDoesNotMatter(c: Chan, acts: seq<Action>)
    requires AckInv(c) && LatencyConsistent(c.dsp) && Runs(c, acts) && CommandRun(c, acts)
    ensures Same(Eventually(After(c, acts)), InstallAll(Eventually(c), AskedAll(acts)))
    decreases |acts|
  {
    if acts != [] {
      var d := Apply(c, acts[0]);
      AckStep(c, acts[0]);
      StepKeepsLatency(c, acts[0]);
      StepMeans(c, acts[0]);
      ScheduleDoesNotMatter(d, acts[1..]);
      InstallAllRespectsMeaning(Eventually(d), InstallAll(Eventually(c), Asked(acts[0])), AskedAll(acts[1..]));
      InstallAllAppend(Eventually(c), Asked(acts[0]), AskedAll(acts[1..]));
    }
  }

  /** In particular a run that starts and ends with nothing outstanding. */
  lemma DrainedRunIsPlainInstallation(c: Chan, acts: seq<Action>)
    requires AckInv(c) && LatencyConsistent(c.dsp) && Runs(c, acts) && CommandRun(c, acts)
    requires Outstanding(c) == [] && Outstanding(After(c, acts)) == []
    ensures Same(After(c, acts).dsp, InstallAll(c.dsp, AskedAll(acts)))
  {
    ScheduleDoesNotMatter(c, acts);
  }

  // ---------- live impulse responses ----------

  /** Waiting impulse responses are built for the live rate. */
  predicate LiveIrs(c: Chan) {
    forall i :: 0 <= i < |Waiting(c)| ==>
      Waiting(c)[i].LoadCabIr? ==> Accepts(c.dsp.cfg, Waiting(c)[i].pair)
  }

  /** Steps of the command channel that send live impulse responses only. */
  predicate LiveStep(cfg: Config, a: Action) {
    CommandKind(a) && (a.Send? && a.cmd.LoadCabIr? ==> Accepts(cfg, a.cmd.pair))
  }

  predicate LiveRun(cfg: Config, acts: seq<Action>) {
    forall i :: 0 <= i < |acts| ==> LiveStep(cfg, acts[i])
  }

  lemma InstallKeepsConfig(d: Dsp, p: Payload)
    ensures Install(d, p).cfg == d.cfg
  {
    match p {
      case Restore(t) =>
        assert MaybeModel(d, t.model).cfg == d.cfg;
        assert MaybeIr(MaybeModel(d, t.model), t.ir).cfg == d.cfg;
      case _ =>
    }
  }

  lemma {:induction false} InstallAllKeepsConfig(d: Dsp, ps: seq<Payload>)
    ensures InstallAll(d, ps).cfg == d.cfg
    decreases |ps|
  {
    hide Install;
    if ps != [] {
      InstallKeepsConfig(d, ps[0]);
      InstallAllKeepsConfig(Install(d, ps[0]), ps[1..]);
    }
  }

  lemma StepKeepsConfig(c: Chan, a: Action)
    requires Enabled(c, a) && CommandKind(a)
    ensures Apply(c, a).dsp.cfg == c.dsp.cfg
  {
    hide Install, InstallAll;
    if a.Replay? { InstallAllKeepsConfig(c.dsp, c.rt.recovered); }
    else if a.PopLight? { InstallKeepsConfig(c.dsp, c.ring[0]); }
    else if a.InstallSlot? { InstallKeepsConfig(c.dsp, c.rt.slot.p); }
  }

  /** What waits after a step: the same, less the oldest, or one more. */
  lemma StepWaiting(c: Chan, a: Action)
    requires AckInv(c) && Enabled(c, a) && CommandKind(a)
    ensures Waiting(Apply(c, a))
            == if a.Flush? then Waiting(c) + [ParamsUpdate(c.main.pending.value)]
               else if a.Send? then Waiting(c) + [a.cmd]
               else if a.FlushModel? then Waiting(c) + [Load(a.load)]
               else if a.PopLight? || a.Supersede? || a.InstallSlot? then Waiting(c)[1..]
               else Waiting(c)
  {
    hide Waiting;
    if a.PopLight? || a.Supersede? || a.InstallSlot? { ResolvedWaiting(c, a); }
    else if a.PopToHand? { PopKeepsOrder(c); }
    else { UnresolvedWaiting(c, a); }
  }

  lemma UnresolvedWaiting(c: Chan, a: Action)
    requires Enabled(c, a) && CommandKind(a)
    requires !a.PopLight? && !a.Supersede? && !a.InstallSlot? && !a.PopToHand?
    ensures Waiting(Apply(c, a))
            == if a.Flush? then Waiting(c) + [ParamsUpdate(c.main.pending.value)]
               else if a.Send? then Waiting(c) + [a.cmd]
               else if a.FlushModel? then Waiting(c) + [Load(a.load)] else Waiting(c)
  {
    hide InstallAll, FinishCallback;
  }

  lemma StepKeepsLive(c: Chan, a: Action)
    requires AckInv(c) && LiveIrs(c) && Enabled(c, a) && LiveStep(c.dsp.cfg, a)
    ensures LiveIrs(Apply(c, a)) && CommandStep(c, a)
  {
    hide Apply, AckInv, Waiting, Enabled, Accepts, LiveIrs;
    StepWaiting(c, a);
    StepKeepsConfig(c, a);
    if a.PopLight? || a.Supersede? || a.InstallSlot? {
      ResolvedWaiting(c, a);
      OneLessLive(c, Apply(c, a));
    } else if a.Flush? {
      OneMoreLive(c, Apply(c, a), Flushed(c, a));
    } else if a.Send? || a.FlushModel? {
      OneMoreLive(c, Apply(c, a), if a.Send? then a.cmd else Load(a.load));
    } else {
      SameLive(c, Apply(c, a));
    }
    if a.Supersede? { SecondIsLive(c); }
  }

  function Flushed(c: Chan, a: Action): Payload
    requires Enabled(c, a) && a.Flush?
  {
    ParamsUpdate(c.main.pending.value)
  }

  lemma OneMoreLive(c: Chan, d: Chan, p: Payload)
    requires LiveIrs(c) && d.dsp.cfg == c.dsp.cfg && Waiting(d) == Waiting(c) + [p]
    requires p.LoadCabIr? ==> Accepts(c.dsp.cfg, p.pair)
    ensures LiveIrs(d)
  {
    hide Waiting, Accepts;
  }

  lemma OneLessLive(c: Chan, d: Chan)
    requires LiveIrs(c) && d.dsp.cfg == c.dsp.cfg && Waiting(c) != [] && Waiting(d) == Waiting(c)[1..]
    ensures LiveIrs(d)
  {
    hide Waiting, Accepts;
  }

  lemma SameLive(c: Chan, d: Chan)
    requires LiveIrs(c) && d.dsp.cfg == c.dsp.cfg && Waiting(d) == Waiting(c)
    ensures LiveIrs(d)
  {
    hide Waiting, Accepts;
  }

  lemma SecondIsLive(c: Chan)
    requires Enabled(c, Supersede) && LiveIrs(c)
    ensures MaySupersede(c.dsp, c.rt.slot.p, c.ring[0])
  {
    hide Accepts;
    SecondWaits(c);
  }

  lemma SecondWaits(c: Chan)
    requires Enabled(c, Supersede)
    ensures |Waiting(c)| >= 2 && Waiting(c)[0] == c.rt.slot.p && Waiting(c)[1] == c.ring[0]
  {}

  /** When every impulse response is built for the live rate, every schedule qualifies. */
  lemma {:induction false} LiveRunsQualify(c: Chan, acts: seq<Action>)
    requires AckInv(c) && LiveIrs(c) && Runs(c, acts) && LiveRun(c.dsp.cfg, acts)
    ensures CommandRun(c, acts)
    decreases |acts|
  {
    hide AckInv, LiveIrs, LiveStep, CommandKind, Apply, Enabled;
    if acts != [] {
      assert LiveStep(c.dsp.cfg, acts[0]);
      AckStep(c, acts[0]);
      StepKeepsLive(c, acts[0]);
      LiveStepKind(c.dsp.cfg, acts[0]);
      StepKeepsConfig(c, acts[0]);
      LiveRunsQualify(Apply(c, acts[0]), acts[1..]);
    }
  }

  lemma LiveStepKind(cfg: Config, a: Action)
    requires LiveStep(cfg, a)
    ensures CommandKind(a)
  {}

  // ---------- the budget ----------

  /** Structural installs of a run. */
  function StructuralInstalls(acts: seq<Action>): nat
    decreases |acts|
  {
    if acts == [] then 0
    else (if acts[0].InstallSlot? || acts[0].SlimInstall? then 1 else 0) + StructuralInstalls(acts[1..])
  }

  predicate WithinCallback(acts: seq<Action>) {
    forall i :: 0 <= i < |acts| ==> !acts[i].BeginCallback? && !acts[i].ActivateOk?
  }

  lemma {:induction false} BudgetIsSpent(c: Chan, acts: seq<Action>)
    requires Runs(c, acts) && WithinCallback(acts)
    ensures StructuralInstalls(acts) + After(c, acts).rt.budget == c.rt.budget
    decreases |acts|
  {
    if acts != [] {
      BudgetStep(c, acts[0]);
      BudgetIsSpent(Apply(c, acts[0]), acts[1..]);
    }
  }

  lemma BudgetStep(c: Chan, a: Action)
    requires Enabled(c, a) && !a.BeginCallback? && !a.ActivateOk?
    ensures Apply(c, a).rt.budget + (if a.InstallSlot? || a.SlimInstall? then 1 else 0) == c.rt.budget
  {}

  /** At most one structural command of either ring is installed between the start of a
      callback and the start of the next. */
  lemma OneStructuralInstallPerCallback(c: Chan, acts: seq<Action>)
    requires Enabled(c, BeginCallback) && Runs(Apply(c, BeginCallback), acts) && WithinCallback(acts)
    ensures StructuralInstalls(acts) <= 1
  {
    BudgetIsSpent(Apply(c, BeginCallback), acts);
  }
}
