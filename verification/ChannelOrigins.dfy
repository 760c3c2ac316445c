/** Where the running model comes from.  A model may travel through the ring, a rollback, the
    pending slot, a second trip through the ring, or a replay, and its left half may be replaced
    by rebuilds; over every run it stays traceable to one model the main thread handed over. */
module ChannelOrigins {
  import opened Options
  import opened Payloads
  import opened SwapDomain
  import opened Channel
  import opened ChannelReplay
  import opened FinalState
  import Rollback

  /** What identifies a model wherever it is; the resampler and the stream are rebuilt on the way. */
  datatype Source = Source(
    generation: nat, modelL: Option<Model>, modelR: Option<Model>, inputMult: real, outputMult: real)

  function SourceOf(m: LoadModel): Source { Source(m.generation, m.modelL, m.modelR, m.inputMult, m.outputMult) }

  function SourceOfPending(m: Rollback.PendingModel): Source {
    Source(m.generation, m.modelL, m.modelR, m.inputMult, m.outputMult)
  }

  function SourceOfChain(ch: Chain): Source {
    Source(ch.generation, ch.modelL, ch.modelR, ch.inputMult, ch.outputMult)
  }

  predicate Sent(s: Source, models: seq<Rollback.PendingModel>) {
    exists k :: 0 <= k < |models| && SourceOfPending(models[k]) == s
  }

  /** A rebuild of the model `s` is tagged with its generation. */
  predicate Rebuilt(m: Option<Model>, s: Source, rebuilds: seq<Rebuild>) {
    exists j :: 0 <= j < |rebuilds| && rebuilds[j].generation == s.generation && m == Some(rebuilds[j].model)
  }

  /** The chain runs the model `s`, its left half possibly replaced by a rebuild of that model. */
  predicate Stems(ch: Chain, s: Source, rebuilds: seq<Rebuild>) {
    SourceOfChain(ch).(modelL := s.modelL) == s && (ch.modelL == s.modelL || Rebuilt(ch.modelL, s, rebuilds))
  }

  ghost predicate ChainKnown(ch: Chain, origin: Source, h: History) {
    exists s :: (s == origin || Sent(s, h.models)) && Stems(ch, s, h.rebuilds)
  }

  predicate Carried(p: Payload, models: seq<Rollback.PendingModel>) {
    LoadOf(p).Some? ==> Sent(SourceOf(LoadOf(p).value), models)
  }

  predicate AllCarried(ps: seq<Payload>, models: seq<Rollback.PendingModel>) {
    forall i :: 0 <= i < |ps| ==> Carried(ps[i], models)
  }

  predicate PendingSent(m: Option<Rollback.PendingModel>, models: seq<Rollback.PendingModel>) {
    m.Some? ==> Sent(SourceOfPending(m.value), models)
  }

  predicate SlimKnown(s: Slim, rebuilds: seq<Rebuild>) {
    (forall i :: 0 <= i < |s.ring| ==> s.ring[i] in rebuilds) && (s.slot.Some? ==> s.slot.value in rebuilds)
  }

  ghost predicate OriginInv(c: Chan, origin: Source) {
    AllCarried(c.hist.delivered, c.hist.models) && PendingSent(c.cold.pendingModel, c.hist.models)
    && SlimKnown(c.slim, c.hist.rebuilds) && ChainKnown(c.dsp.chain, origin, c.hist)
  }

  // ---------- what a step does to the parts ----------

  function DeliveredBy(c: Chan, a: Action): seq<Payload>
    requires Enabled(c, a)
  {
    match a
    case Flush => [ParamsUpdate(c.main.pending.value)]
    case Send(cmd) => [cmd]
    case FlushModel(m) => [Load(m)]
    case _ => []
  }

  function FirstSent(a: Action): seq<Rollback.PendingModel> {
    match a
    case Send(cmd) => ModelsIn(cmd)
    case Defer(m) => [m]
    case _ => []
  }

  /** What a step leaves in the history and in the pending slot. */
  predicate HistoryGrows(c: Chan, a: Action, d: Chan)
    requires Enabled(c, a)
  {
    d.hist.delivered == c.hist.delivered + DeliveredBy(c, a) && d.hist.models == c.hist.models + FirstSent(a)
    && d.hist.rebuilds == c.hist.rebuilds + (if a.SlimSend? then [a.rebuild] else [])
    && d.cold.pendingModel == (if a.FlushModel? then None else if a.Defer? then Some(a.model)
                               else if a.ActivateFail? then Rollback.SlotAfter(c.cold.pendingModel, c.ring)
                               else c.cold.pendingModel)
  }

  predicate MainSends(a: Action) { a.Flush? || a.Send? || a.Defer? || a.FlushModel? || a.SlimSend? }

  predicate Boundary(a: Action) { a.ActivateOk? || a.ActivateFail? || a.Deactivate? }

  lemma HistoryAfter(c: Chan, a: Action)
    requires Enabled(c, a)
    ensures HistoryGrows(c, a, Apply(c, a))
  {
    hide Apply, Enabled, HistoryGrows;
    if MainSends(a) { HistoryOfSends(c, a); }
    else if Boundary(a) { HistoryOfBoundaries(c, a); }
    else { HistoryElsewhere(c, a); }
  }

  lemma HistoryOfSends(c: Chan, a: Action)
    requires Enabled(c, a) && MainSends(a)
    ensures HistoryGrows(c, a, Apply(c, a))
  {
    hide PendingItems, ModelsIn;
  }

  lemma HistoryOfBoundaries(c: Chan, a: Action)
    requires Enabled(c, a) && Boundary(a)
    ensures HistoryGrows(c, a, Apply(c, a))
  {
    hide Freed, ItemsOf, SlotItems, RebuildItems, Rollback.SlotAfter, Rollback.NonModels, BatchAt;
  }

  lemma HistoryElsewhere(c: Chan, a: Action)
    requires Enabled(c, a) && !MainSends(a) && !Boundary(a)
    ensures HistoryGrows(c, a, Apply(c, a))
  {
    hide Install, InstallAll, FinishCallback, Discard, Adjusted;
  }

  /** What a step leaves of the rebuilds. */
  predicate SlimGrows(c: Chan, a: Action, s: Slim) {
    s.ring == (if a.SlimSend? then c.slim.ring + [a.rebuild]
               else if a.SlimPop? && c.slim.ring != [] then c.slim.ring[1..] else c.slim.ring)
    && s.slot == (if a.SlimPop? && c.slim.ring != [] then Some(c.slim.ring[0])
                  else if a.SlimInstall? || a.SlimStale? || a.SlimSupersede? || a.Deactivate? then None
                  else c.slim.slot)
  }

  lemma SlimAfter(c: Chan, a: Action)
    requires Enabled(c, a)
    ensures SlimGrows(c, a, Apply(c, a).slim)
  {
    hide Apply, Enabled, SlimGrows;
    if a.SlimSend? || a.SlimPop? || a.SlimInstall? || a.SlimStale? || a.SlimSupersede? { SlimOfSlim(c, a); }
    else if MainSends(a) || Boundary(a) { SlimOfOthers(c, a); }
    else { SlimElsewhere(c, a); }
  }

  lemma SlimOfSlim(c: Chan, a: Action)
    requires Enabled(c, a) && (a.SlimSend? || a.SlimPop? || a.SlimInstall? || a.SlimStale? || a.SlimSupersede?)
    ensures SlimGrows(c, a, Apply(c, a).slim)
  {
    hide InstallRebuild, RetireRebuild;
  }

  lemma SlimOfOthers(c: Chan, a: Action)
    requires Enabled(c, a) && !a.SlimSend? && (MainSends(a) || Boundary(a))
    ensures SlimGrows(c, a, Apply(c, a).slim)
  {
    hide Freed, ItemsOf, SlotItems, RebuildItems, PendingItems, Rollback.SlotAfter, Rollback.NonModels, BatchAt;
  }

  lemma SlimElsewhere(c: Chan, a: Action)
    requires Enabled(c, a) && !MainSends(a) && !Boundary(a)
    requires !a.SlimPop? && !a.SlimInstall? && !a.SlimStale? && !a.SlimSupersede?
    ensures SlimGrows(c, a, Apply(c, a).slim)
  {
    hide Install, InstallAll, FinishCallback, Discard, Adjusted;
  }

  /** The commands a step installs. */
  function InstalledBy(c: Chan, a: Action): seq<Payload>
    requires Enabled(c, a)
  {
    match a
    case PopLight => [c.ring[0]]
    case InstallSlot => [c.rt.slot.p]
    case Replay => c.rt.recovered
    case _ => []
  }

  lemma ChainAfter(c: Chan, a: Action)
    requires Enabled(c, a)
    ensures Apply(c, a).dsp.chain
            == if a.SlimInstall? then c.dsp.chain.(modelL := Some(c.slim.slot.value.model))
               else InstallAll(c.dsp, InstalledBy(c, a)).chain
  {
    hide Apply, Enabled, Install;
    if a.PopLight? || a.InstallSlot? {
      InstalledSingly(c, a);
      var p := InstalledBy(c, a)[0];
      assert InstalledBy(c, a)[1..] == [] && InstallAll(Install(c.dsp, p), []) == Install(c.dsp, p);
    } else {
      ChainElsewhere(c, a);
    }
  }

  lemma InstalledSingly(c: Chan, a: Action)
    requires Enabled(c, a) && (a.PopLight? || a.InstallSlot?)
    ensures |InstalledBy(c, a)| == 1 && Apply(c, a).dsp == Install(c.dsp, InstalledBy(c, a)[0])
  {
    hide Install;
  }

  lemma ChainElsewhere(c: Chan, a: Action)
    requires Enabled(c, a) && !a.PopLight? && !a.InstallSlot?
    ensures Apply(c, a).dsp.chain
            == if a.SlimInstall? then c.dsp.chain.(modelL := Some(c.slim.slot.value.model))
               else if a.Replay? then InstallAll(c.dsp, c.rt.recovered).chain else c.dsp.chain
    ensures InstalledBy(c, a) == if a.Replay? then c.rt.recovered else []
  {
    hide Install, InstallAll, Adjusted, Freed, FinishCallback, Discard, RetireRebuild;
    hide ItemsOf, SlotItems, RebuildItems, PendingItems, Rollback.SlotAfter, Rollback.NonModels, BatchAt;
    HandlersLeaveChain(c.dsp);
  }

  lemma HandlersLeaveChain(d: Dsp)
    ensures FinishCallback(d).chain == d.chain
    ensures forall e :: Adjusted(d, e).chain == d.chain
    ensures forall p :: Discard(d, p).chain == d.chain
    ensures forall r :: RetireRebuild(d, r).chain == d.chain
  {
    hide Items, Adjusted;
    forall e ensures Adjusted(d, e).chain == d.chain { AdjustedKeeps(d, e); }
  }

  // ---------- models ----------

  lemma SentLonger(s: Source, models: seq<Rollback.PendingModel>, more: seq<Rollback.PendingModel>)
    requires Sent(s, models)
    ensures Sent(s, models + more)
  {
    var k :| 0 <= k < |models| && SourceOfPending(models[k]) == s;
    assert SourceOfPending((models + more)[k]) == s;
  }

  lemma SentLast(models: seq<Rollback.PendingModel>, m: Rollback.PendingModel)
    ensures Sent(SourceOfPending(m), models + [m])
  {
    assert SourceOfPending((models + [m])[|models|]) == SourceOfPending(m);
  }

  lemma CarriedLonger(ps: seq<Payload>, models: seq<Rollback.PendingModel>, more: seq<Rollback.PendingModel>)
    requires AllCarried(ps, models)
    ensures AllCarried(ps, models + more)
  {
    forall i | 0 <= i < |ps| ensures Carried(ps[i], models + more) {
      assert Carried(ps[i], models);
      if LoadOf(ps[i]).Some? { SentLonger(SourceOf(LoadOf(ps[i]).value), models, more); }
    }
  }

  lemma CarriedBoth(ps: seq<Payload>, qs: seq<Payload>, models: seq<Rollback.PendingModel>)
    requires AllCarried(ps, models) && AllCarried(qs, models)
    ensures AllCarried(ps + qs, models)
  {}

  lemma DeliveredIsCarried(c: Chan, a: Action)
    requires PendingSent(c.cold.pendingModel, c.hist.models) && Enabled(c, a)
    ensures AllCarried(DeliveredBy(c, a), c.hist.models + FirstSent(a))
  {
    hide Sent;
    match a {
      case Send(cmd) => if LoadOf(cmd).Some? { SentLast(c.hist.models, Rollback.Deferred(LoadOf(cmd).value)); }
      case FlushModel(m) =>
        assert SourceOfPending(Rollback.Deferred(m)) == SourceOf(m);
        SentLonger(SourceOf(m), c.hist.models, FirstSent(a));
      case _ =>
    }
  }

  lemma RingIsCarried(c: Chan, models: seq<Rollback.PendingModel>)
    requires AckInv(c) && AllCarried(c.hist.delivered, models)
    ensures AllCarried(Waiting(c), models)
  {
    forall i | 0 <= i < |Waiting(c)| ensures Carried(Waiting(c)[i], models) {
      assert c.hist.delivered[|c.hist.fates|..][i] == c.hist.delivered[|c.hist.fates| + i];
    }
  }

  lemma SlotIsSent(slot: Option<Rollback.PendingModel>, ring: seq<Payload>, models: seq<Rollback.PendingModel>)
    requires PendingSent(slot, models) && AllCarried(ring, models)
    ensures PendingSent(Rollback.SlotAfter(slot, ring), models)
  {
    hide Sent;
    Rollback.NewestIsMaximum(ring);
    if Rollback.NewestModel(ring).Some? {
      var k: int :| Rollback.IsNewest(ring, k)
                    && Rollback.NewestModel(ring) == Some(Rollback.Deferred(ring[k].load));
      assert Carried(ring[k], models);
      assert SourceOfPending(Rollback.Deferred(ring[k].load)) == SourceOf(ring[k].load);
    }
  }

  lemma ModelsStep(c: Chan, a: Action)
    requires AckInv(c) && AllCarried(c.hist.delivered, c.hist.models) && PendingSent(c.cold.pendingModel, c.hist.models)
    requires Enabled(c, a)
    ensures var d := Apply(c, a);
            AllCarried(d.hist.delivered, d.hist.models) && PendingSent(d.cold.pendingModel, d.hist.models)
  {
    HistoryAfter(c, a);
    DeliveredIsCarried(c, a);
    if a.ActivateFail? { UnsettledRing(c); }
    assert a.Defer? ==> FirstSent(a) == [a.model];
    hide AckInv, Apply, Enabled, AllCarried, Sent, Rollback.SlotAfter, DeliveredBy;
    CarriedLonger(c.hist.delivered, c.hist.models, FirstSent(a));
    CarriedBoth(c.hist.delivered, DeliveredBy(c, a), c.hist.models + FirstSent(a));
    if a.ActivateFail? {
      RingIsCarried(c, c.hist.models);
      SlotIsSent(c.cold.pendingModel, c.ring, c.hist.models);
    } else if a.Defer? {
      SentLast(c.hist.models, a.model);
    } else if c.cold.pendingModel.Some? {
      SentLonger(SourceOfPending(c.cold.pendingModel.value), c.hist.models, FirstSent(a));
    }
    assert c.hist.models + [] == c.hist.models;
  }

  lemma UnsettledRing(c: Chan)
    requires AckInv(c) && Enabled(c, ActivateFail)
    ensures Waiting(c) == c.ring
  {}

  // ---------- rebuilds ----------

  lemma SlimStep(c: Chan, a: Action)
    requires SlimKnown(c.slim, c.hist.rebuilds) && Enabled(c, a)
    ensures SlimKnown(Apply(c, a).slim, Apply(c, a).hist.rebuilds)
  {
    hide Apply, Enabled, DeliveredBy, FirstSent, Rollback.SlotAfter;
    HistoryAfter(c, a);
    SlimAfter(c, a);
    if a.SlimSend? { assert (c.hist.rebuilds + [a.rebuild])[|c.hist.rebuilds|] == a.rebuild; }
  }

  // ---------- the chain ----------

  lemma {:induction false} InstalledChain(d: Dsp, ps: seq<Payload>, origin: Source, h: History)
    requires ChainKnown(d.chain, origin, h) && AllCarried(ps, h.models)
    ensures ChainKnown(InstallAll(d, ps).chain, origin, h)
    decreases |ps|
  {
    hide Install, Sent, Rebuilt, Writes, ChainKnown;
    if ps != [] {
      assert Carried(ps[0], h.models);
      InstalledOne(d, ps[0], origin, h);
      InstalledChain(Install(d, ps[0]), ps[1..], origin, h);
    }
  }

  lemma InstalledOne(d: Dsp, p: Payload, origin: Source, h: History)
    requires ChainKnown(d.chain, origin, h) && Carried(p, h.models)
    ensures ChainKnown(Install(d, p).chain, origin, h)
  {
    hide Install, Sent, Rebuilt, LoadOf;
    InstallWrites(d, p);
    if LoadOf(p).Some? {
      var m := LoadOf(p).value;
      assert Stems(ChainOf(m), SourceOf(m), h.rebuilds);
    }
  }

  lemma RebuiltChain(ch: Chain, r: Rebuild, origin: Source, h: History)
    requires ChainKnown(ch, origin, h) && r in h.rebuilds && r.generation == ch.generation
    ensures ChainKnown(ch.(modelL := Some(r.model)), origin, h)
  {
    hide Sent;
    var s :| (s == origin || Sent(s, h.models)) && Stems(ch, s, h.rebuilds);
    var j :| 0 <= j < |h.rebuilds| && h.rebuilds[j] == r;
    assert Rebuilt(Some(r.model), s, h.rebuilds);
    assert Stems(ch.(modelL := Some(r.model)), s, h.rebuilds);
  }

  lemma KnownLonger(ch: Chain, origin: Source, h: History, k: History)
    requires ChainKnown(ch, origin, h) && h.models <= k.models && h.rebuilds <= k.rebuilds
    ensures ChainKnown(ch, origin, k)
  {
    var s :| (s == origin || Sent(s, h.models)) && Stems(ch, s, h.rebuilds);
    if s != origin {
      SentLonger(s, h.models, k.models[|h.models|..]);
      assert h.models + k.models[|h.models|..] == k.models;
    }
    if ch.modelL != s.modelL {
      var j :| 0 <= j < |h.rebuilds| && h.rebuilds[j].generation == s.generation
               && ch.modelL == Some(h.rebuilds[j].model);
      assert k.rebuilds[j] == h.rebuilds[j];
    }
    assert Stems(ch, s, k.rebuilds);
  }

  lemma ChainStep(c: Chan, a: Action, origin: Source)
    requires AckInv(c) && WhereInv(c) && OriginInv(c, origin) && Enabled(c, a)
    ensures ChainKnown(Apply(c, a).dsp.chain, origin, Apply(c, a).hist)
  {
    ChainAfter(c, a);
    HistoryAfter(c, a);
    if a.SlimInstall? { SlimSlotMatches(c, a); }
    hide Apply, Enabled, ChainKnown, Sent, InstallAll;
    if a.SlimInstall? {
      RebuiltChain(c.dsp.chain, c.slim.slot.value, origin, c.hist);
    } else {
      InstalledAreCarried(c, a);
      InstalledChain(c.dsp, InstalledBy(c, a), origin, c.hist);
    }
    KnownLonger(Apply(c, a).dsp.chain, origin, c.hist, Apply(c, a).hist);
  }

  lemma SlimSlotMatches(c: Chan, a: Action)
    requires Enabled(c, a) && a.SlimInstall?
    ensures c.slim.slot.Some? && c.slim.slot.value.generation == c.dsp.chain.generation
  {}

  /** Everything installed has been delivered before. */
  lemma InstalledAreCarried(c: Chan, a: Action)
    requires AckInv(c) && WhereInv(c) && Enabled(c, a) && AllCarried(c.hist.delivered, c.hist.models)
    ensures AllCarried(InstalledBy(c, a), c.hist.models)
  {
    hide Carried, AckInv, OnceEach, ReplayOnlyActive;
    match a {
      case PopLight => RingIsCarried(c, c.hist.models); assert Waiting(c)[0] == c.ring[0];
      case InstallSlot => RingIsCarried(c, c.hist.models); assert Waiting(c)[0] == c.rt.slot.p;
      case _ =>
    }
  }

  // ---------- over runs ----------

  lemma OriginStep(c: Chan, a: Action, origin: Source)
    requires AckInv(c) && WhereInv(c) && OriginInv(c, origin) && Enabled(c, a)
    ensures OriginInv(Apply(c, a), origin)
  {
    hide AckInv, WhereInv, Apply, Enabled, AllCarried, PendingSent, SlimKnown, ChainKnown;
    ModelsStep(c, a);
    SlimStep(c, a);
    ChainStep(c, a, origin);
  }

  lemma {:induction false} OriginRun(c: Chan, acts: seq<Action>, origin: Source)
    requires AckInv(c) && FatesInv(c) && WhereInv(c) && OriginInv(c, origin) && Runs(c, acts)
    ensures OriginInv(After(c, acts), origin)
    decreases |acts|
  {
    hide AckInv, FatesInv, WhereInv, OriginInv, Enabled, Apply;
    if acts != [] {
      AckStep(c, acts[0]);
      FatesStep(c, acts[0]);
      WhereStep(c, acts[0]);
      OriginStep(c, acts[0], origin);
      OriginRun(Apply(c, acts[0]), acts[1..], origin);
    }
  }

  lemma OriginStart(c0: Chan)
    requires Initial(c0)
    ensures OriginInv(c0, SourceOfChain(c0.dsp.chain))
  {
    assert Stems(c0.dsp.chain, SourceOfChain(c0.dsp.chain), c0.hist.rebuilds);
  }

  /** Every model handed over got a generation of its own, and none the generation of the first chain. */
  predicate FreshGenerations(models: seq<Rollback.PendingModel>, first: nat) {
    (forall i :: 0 <= i < |models| ==> models[i].generation != first)
    && forall i, j :: 0 <= i < j < |models| ==> models[i].generation != models[j].generation
  }

  lemma OneSource(s: Source, models: seq<Rollback.PendingModel>, first: Source, k: nat)
    requires FreshGenerations(models, first.generation) && (s == first || Sent(s, models))
    ensures k < |models| && s.generation == models[k].generation ==> s == SourceOfPending(models[k])
    ensures s.generation == first.generation ==> s == first
  {
    if s != first {
      var i :| 0 <= i < |models| && SourceOfPending(models[i]) == s;
      assert models[i].generation == s.generation;
    }
  }

  /** A rebuild never replaces another model's left half.  Over every run in which each model handed
      over has a generation of its own: when a rebuild tagged with the generation of the `k`-th
      model may be installed, the chain runs exactly that model, on both sides and with its
      multipliers, its left half at most exchanged for an earlier rebuild of the same model; and
      likewise for a rebuild of the model the plugin started with. */
  lemma RebuildReplacesItsOwnModel(c0: Chan, acts: seq<Action>, k: nat)
    requires Initial(c0) && Runs(c0, acts) && Enabled(After(c0, acts), SlimInstall)
    requires FreshGenerations(After(c0, acts).hist.models, c0.dsp.chain.generation)
    ensures var c := After(c0, acts);
            var r := c.slim.slot.value;
            r in c.hist.rebuilds
            && (k < |c.hist.models| && r.generation == c.hist.models[k].generation ==>
                  Stems(c.dsp.chain, SourceOfPending(c.hist.models[k]), c.hist.rebuilds))
            && (r.generation == c0.dsp.chain.generation ==>
                  Stems(c.dsp.chain, SourceOfChain(c0.dsp.chain), c.hist.rebuilds))
            && (r.generation == c0.dsp.chain.generation
                || exists i :: 0 <= i < |c.hist.models| && r.generation == c.hist.models[i].generation)
  {
    hide AckInv, FatesInv, WhereInv, Apply, Rebuilt, AllCarried, PendingSent;
    StartsRight(c0);
    OriginStart(c0);
    var first := SourceOfChain(c0.dsp.chain);
    OriginRun(c0, acts, first);
    var c := After(c0, acts);
    SlimSlotMatches(c, SlimInstall);
    hide Enabled;
    var s :| (s == first || Sent(s, c.hist.models)) && Stems(c.dsp.chain, s, c.hist.rebuilds);
    OneSource(s, c.hist.models, first, k);
    if s != first {
      var i :| 0 <= i < |c.hist.models| && SourceOfPending(c.hist.models[i]) == s;
      assert c.slim.slot.value.generation == c.hist.models[i].generation;
    }
  }
}
