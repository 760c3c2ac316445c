/** Ownership, model generations, latency reports and the pending restart over whole runs of
    the command channel, activation boundaries included. */
module ChannelResources {
  import opened Options
  import opened Payloads
  import opened SwapDomain
  import opened Channel
  import opened ChannelReplay
  import opened SwapFields
  import Rollback

  // ---------- conservation ----------

  /** How often a resource occurs among the commands on their way to the processor. */
  function InCommands(c: Chan, x: GcItem): nat {
    SlotItems(c.rt.slot)[x] + ItemsOf(c.ring)[x] + ItemsOf(c.rt.recovered)[x] + ItemsOf(c.cold.staged)[x]
    + PendingItems(c.cold.pendingModel)[x]
  }

  function InRebuilds(c: Chan, x: GcItem): nat {
    RebuildItems(c.slim.slot)[x] + RebuildsItems(c.slim.ring)[x]
  }

  /** How often it occurs anywhere: on its way, in the processor, or freed. */
  function Located(c: Chan, x: GcItem): nat {
    InCommands(c, x) + InRebuilds(c, x) + Owned(c.dsp)[x] + c.cold.dropped[x]
  }

  /** How often the main thread has put it into the two rings or the pending slot, a model that
      went from the slot into the ring not counted again. */
  function SentCount(c: Chan, x: GcItem): int {
    var sent: int := ItemsOf(c.hist.delivered)[x] + c.hist.deferred[x] + c.slim.sent[x];
    sent - c.hist.resent[x]
  }

  lemma {:induction false} RebuildsAppend(rs: seq<Rebuild>, r: Rebuild, x: GcItem)
    ensures RebuildsItems(rs + [r])[x] == RebuildsItems(rs)[x] + multiset{ModelItem(r.model)}[x]
  {
    if rs == [] {
      assert rs + [r] == [r];
      assert [r][1..] == [];
    } else {
      RebuildsAppend(rs[1..], r, x);
      assert (rs + [r])[0] == rs[0] && (rs + [r])[1..] == rs[1..] + [r];
    }
  }

  lemma {:induction false} ItemsOfConcat(a: seq<Payload>, b: seq<Payload>, x: GcItem)
    ensures ItemsOf(a + b)[x] == ItemsOf(a)[x] + ItemsOf(b)[x]
  {
    hide Items;
    if a == [] {
      assert a + b == b;
    } else {
      ItemsOfConcat(a[1..], b, x);
      assert (a + b)[0] == a[0] && (a + b)[1..] == a[1..] + b;
    }
  }

  lemma {:induction false} InstallAllConserves(d: Dsp, ps: seq<Payload>, x: GcItem)
    ensures Owned(InstallAll(d, ps))[x] == Owned(d)[x] + ItemsOf(ps)[x]
    decreases |ps|
  {
    hide Items, Owned, Install;
    if ps != [] {
      InstallConserves(d, ps[0]);
      InstallAllConserves(Install(d, ps[0]), ps[1..], x);
    }
  }

  lemma ModelsAreCarried(m: LoadModel, x: GcItem)
    ensures PendingItems(Some(Rollback.Deferred(m)))[x] <= Items(Load(m))[x]
  {}

  /** A rollback keeps no more than it found. */
  lemma {:induction false} KeptIsFound(ring: seq<Payload>, x: GcItem)
    ensures ItemsOf(Rollback.NonModels(ring))[x] + PendingItems(Rollback.NewestModel(ring))[x] <= ItemsOf(ring)[x]
  {
    hide Items, PendingItems;
    if ring == [] {
      assert PendingItems(None)[x] == 0 by { NothingPending(x); }
    } else {
      var n := |ring| - 1;
      KeptIsFound(ring[..n], x);
      NothingPending(x);
      assert ring == ring[..n] + [ring[n]];
      ItemsOfAppend(ring[..n], ring[n]);
      if ring[n].Load? {
        ModelsAreCarried(ring[n].load, x);
      } else {
        ItemsOfAppend(Rollback.NonModels(ring[..n]), ring[n]);
      }
    }
  }

  lemma NothingPending(x: GcItem)
    ensures PendingItems(None)[x] == 0 && ItemsOf([])[x] == 0
  {}

  lemma FreedCount(c: Chan, x: GcItem)
    ensures Freed(c)[x] + ItemsOf(Rollback.NonModels(c.ring))[x]
            + PendingItems(Rollback.SlotAfter(c.cold.pendingModel, c.ring))[x]
            == ItemsOf(c.ring)[x] + PendingItems(c.cold.pendingModel)[x]
  {
    hide Items, ItemsOf, PendingItems;
    KeptIsFound(c.ring, x);
    NothingPending(x);
  }

  lemma RollbackConserves(c: Chan, x: GcItem)
    requires AckInv(c) && Enabled(c, ActivateFail)
    ensures Located(Apply(c, ActivateFail), x) == Located(c, x)
  {
    hide Items, ItemsOf, PendingItems, Freed, Owned, Rollback.NonModels, Rollback.SlotAfter, Apply, Enabled, AckInv;
    hide BatchAt;
    RollbackFields(c);
    FreedCount(c, x);
    ItemsOfConcat(Rollback.NonModels(c.ring), c.cold.staged, x);
    NothingPending(x);
  }

  lemma DeliverConserves(c: Chan, p: Payload, x: GcItem)
    ensures Located(Deliver(c, p), x) == Located(c, x) + Items(p)[x]
    ensures SentCount(Deliver(c, p), x) == SentCount(c, x) + Items(p)[x]
  {
    hide Items, ItemsOf, PendingItems, Owned;
    ItemsOfAppend(c.ring, p);
    ItemsOfAppend(c.hist.delivered, p);
  }

  lemma ReplayStep(c: Chan, a: Action)
    requires AckInv(c) && Enabled(c, a) && ReplayOnlyActive(c)
    ensures ReplayOnlyActive(Apply(c, a))
  {
    hide Install, InstallAll, FinishCallback, Discard, Adjusted, Freed;
  }

  lemma PopConserves(c: Chan, x: GcItem)
    requires c.ring != [] && c.rt.slot.Empty?
    ensures Located(PopHead(c), x) == Located(c, x)
  {
    hide Items, PendingItems, Owned;
  }

  lemma ResolveConserves(c: Chan, dsp: Dsp, fate: Fate, x: GcItem)
    requires !c.rt.slot.Empty? && Owned(dsp)[x] == Owned(c.dsp)[x] + Items(c.rt.slot.p)[x]
    ensures Located(Resolve(c, dsp, fate), x) == Located(c, x)
  {
    hide Items, PendingItems, Owned;
  }

  lemma DiscardConserves(d: Dsp, p: Payload)
    ensures Owned(Discard(d, p)) == Owned(d) + Items(p)
  {}

  lemma DrainConserves(c: Chan, a: Action, x: GcItem)
    requires Enabled(c, a) && (a.PopLight? || a.PopToHand? || a.Supersede? || a.InstallSlot?)
    ensures Located(Apply(c, a), x) == Located(c, x)
  {
    hide Items, PendingItems, Owned, Install, Discard, ItemsOf, Located;
    match a {
      case PopLight =>
        PopConserves(c, x);
        InstallConserves(c.dsp, c.ring[0]);
        ResolveConserves(PopHead(c), Install(c.dsp, c.ring[0]), Installed, x);
      case InstallSlot =>
        InstallConserves(c.dsp, c.rt.slot.p);
        ResolveConserves(c, Install(c.dsp, c.rt.slot.p), Installed, x);
        BudgetLocatesNothing(Resolve(c, Install(c.dsp, c.rt.slot.p), Installed), c.rt.budget - 1, x);
      case Supersede =>
        DiscardConserves(c.dsp, c.rt.slot.p);
        ResolveConserves(c, Discard(c.dsp, c.rt.slot.p), Superseded, x);
      case PopToHand => PopConserves(c, x);
    }
  }

  lemma BudgetLocatesNothing(c: Chan, budget: nat, x: GcItem)
    ensures Located(c.(rt := c.rt.(budget := budget)), x) == Located(c, x)
  {
    hide Items, PendingItems, Owned, ItemsOf;
  }

  lemma ReplayConserves(c: Chan, x: GcItem)
    requires Enabled(c, Replay)
    ensures Located(Apply(c, Replay), x) == Located(c, x)
  {
    hide Items, PendingItems, Owned, InstallAll;
    InstallAllConserves(c.dsp, c.rt.recovered, x);
  }

  /** A step that only touches the slimmable ring and the processor. */
  lemma SlimPlaces(c: Chan, d: Chan, x: GcItem)
    requires d.rt.slot == c.rt.slot && d.ring == c.ring && d.rt.recovered == c.rt.recovered && d.cold == c.cold
    requires InRebuilds(d, x) + Owned(d.dsp)[x] == InRebuilds(c, x) + Owned(c.dsp)[x]
    ensures Located(d, x) == Located(c, x)
  {
    hide Items, ItemsOf, PendingItems, Owned, InRebuilds;
  }

  lemma SlimPopConserves(c: Chan, x: GcItem)
    requires Enabled(c, SlimPop)
    ensures Located(Apply(c, SlimPop), x) == Located(c, x)
  {
    hide Items, ItemsOf, PendingItems, Owned, Located;
    SlimPlaces(c, Apply(c, SlimPop), x);
  }

  lemma SlimInstallConserves(c: Chan, x: GcItem)
    requires Enabled(c, SlimInstall)
    ensures Located(Apply(c, SlimInstall), x) == Located(c, x)
  {
    hide Items, ItemsOf, PendingItems, Owned, Located, InstallRebuild, RebuildsItems;
    RebuildConserves(c.dsp, c.slim.slot.value);
    SlimPlaces(c, Apply(c, SlimInstall), x);
  }

  lemma SlimRetireConserves(c: Chan, a: Action, x: GcItem)
    requires Enabled(c, a) && (a.SlimStale? || a.SlimSupersede?)
    ensures Located(Apply(c, a), x) == Located(c, x)
  {
    hide Items, ItemsOf, PendingItems, Owned, Located, RetireRebuild, RebuildsItems;
    RebuildConserves(c.dsp, c.slim.slot.value);
    SlimPlaces(c, Apply(c, a), x);
  }

  lemma RebuildConserves(d: Dsp, r: Rebuild)
    ensures Owned(InstallRebuild(d, r)) == Owned(d) + multiset{ModelItem(r.model)}
    ensures Owned(RetireRebuild(d, r)) == Owned(d) + multiset{ModelItem(r.model)}
  {}

  lemma ReportingOwnsNothing(d: Dsp, side: Side)
    ensures Owned(FinishCallback(d)) == Owned(d) == Owned(d.(side := side))
  {}

  lemma AdjustedOwnsNothing(d: Dsp, e: ParamEvent)
    ensures Owned(Adjusted(d, e)) == Owned(d)
  {
    hide Adjusted;
    AdjustedKeeps(d, e);
  }

  lemma ActivationConserves(c: Chan, x: GcItem)
    requires AckInv(c) && ReplayOnlyActive(c) && Enabled(c, ActivateOk)
    ensures Located(Apply(c, ActivateOk), x) == Located(c, x)
  {
    hide Items, ItemsOf, PendingItems, Owned, Apply, Enabled, AckInv, ReplayOnlyActive, Located;
    NothingHeldInactive(c);
    ActivationFields(c);
    ActivationLeavesSlim(c);
    ReportingOwnsNothing(c.dsp, Apply(c, ActivateOk).dsp.side);
    StagedMoved(c, Apply(c, ActivateOk), x);
  }

  /** The staged commands have become the ones to replay. */
  lemma StagedMoved(c: Chan, d: Chan, x: GcItem)
    requires c.rt.slot.Empty? && d.rt.slot.Empty? && d.ring == c.ring && d.slim == c.slim
    requires c.rt.recovered == [] && d.rt.recovered == c.cold.staged && d.cold == c.cold.(staged := [])
    requires Owned(d.dsp) == Owned(c.dsp)
    ensures Located(d, x) == Located(c, x)
  {
    hide Items, PendingItems, Owned, RebuildsItems, RebuildItems;
    NothingPending(x);
  }

  lemma NothingHeldInactive(c: Chan)
    requires AckInv(c) && ReplayOnlyActive(c) && Enabled(c, ActivateOk)
    ensures c.rt.slot.Empty? && c.rt.recovered == []
  {}

  lemma DeactivationDrops(c: Chan)
    requires Enabled(c, Deactivate)
    ensures var d := Apply(c, Deactivate);
            d.cold.dropped == c.cold.dropped + SlotItems(c.rt.slot) + RebuildItems(c.slim.slot) + ItemsOf(c.rt.recovered)
            && d.cold.pendingModel == c.cold.pendingModel && d.slim == c.slim.(slot := None)
  {
    hide SlotItems, RebuildItems, ItemsOf;
  }

  lemma DeactivationConserves(c: Chan, x: GcItem)
    requires Enabled(c, Deactivate)
    ensures Located(Apply(c, Deactivate), x) == Located(c, x)
  {
    hide Items, ItemsOf, PendingItems, Owned, Apply, Enabled, RebuildsItems;
    DeactivationClears(c);
    DeactivationDrops(c);
    NothingPending(x);
  }

  lemma QuietStep(c: Chan, a: Action, x: GcItem)
    requires Enabled(c, a) && (a.PushParams? || a.Count? || a.BeginCallback? || a.EndCallback? || a.Adjust?)
    ensures Located(Apply(c, a), x) == Located(c, x)
  {
    hide Items, ItemsOf, PendingItems, Owned, FinishCallback, Adjusted, Located;
    match a {
      case EndCallback => ReportingOwnsNothing(c.dsp, c.dsp.side);
      case Adjust(e) => AdjustedOwnsNothing(c.dsp, e);
      case PushParams(_) => case Count => case BeginCallback =>
    }
    SamePlaces(c, Apply(c, a), x);
  }

  lemma SamePlaces(c: Chan, d: Chan, x: GcItem)
    requires d.rt.slot == c.rt.slot && d.ring == c.ring && d.rt.recovered == c.rt.recovered && d.slim == c.slim
    requires d.cold.staged == c.cold.staged && d.cold.pendingModel == c.cold.pendingModel
    requires d.cold.dropped == c.cold.dropped && Owned(d.dsp) == Owned(c.dsp)
    ensures Located(d, x) == Located(c, x)
  {
    hide Items, ItemsOf, PendingItems, Owned;
  }

  lemma ParkConserves(c: Chan, x: GcItem)
    requires Enabled(c, Park)
    ensures Located(Apply(c, Park), x) == Located(c, x)
  {
    hide Items, ItemsOf, PendingItems, Owned;
  }

  /** Resources located and resources sent change by the same amount. */
  predicate Balanced(c: Chan, d: Chan, x: GcItem) {
    Located(d, x) + SentCount(c, x) == Located(c, x) + SentCount(d, x)
  }

  lemma SlimSendConserves(c: Chan, r: Rebuild, x: GcItem)
    requires Enabled(c, SlimSend(r))
    ensures Balanced(c, Apply(c, SlimSend(r)), x)
  {
    hide Items, ItemsOf, PendingItems, Owned;
    RebuildsAppend(c.slim.ring, r, x);
  }

  lemma OnlySendsCount(c: Chan, a: Action, x: GcItem)
    requires Enabled(c, a) && !a.Flush? && !a.Send? && !a.Defer? && !a.FlushModel? && !a.SlimSend?
    ensures SentCount(Apply(c, a), x) == SentCount(c, x)
  {
    hide Items, ItemsOf, Install, InstallAll, FinishCallback, Discard, Adjusted, Freed, PendingItems;
  }

  /** Each action moves resources about; only a send adds any. */
  lemma StepConserves(c: Chan, a: Action, x: GcItem)
    requires AckInv(c) && ReplayOnlyActive(c) && Enabled(c, a)
    ensures Balanced(c, Apply(c, a), x)
  {
    hide AckInv, ReplayOnlyActive, Enabled, Located, SentCount, Deliver, Items;
    if a.Flush? {
      FlushConserves(c, x);
    } else if a.Send? {
      SendConserves(c, a.cmd, x);
    } else if a.FlushModel? {
      FlushModelConserves(c, a.load, x);
    } else if a.Defer? {
      DeferConserves(c, a.model, x);
    } else if a.SlimSend? {
      SlimSendConserves(c, a.rebuild, x);
    } else {
      OnlySendsCount(c, a, x);
      StepLocates(c, a, x);
    }
  }

  lemma FlushConserves(c: Chan, x: GcItem)
    requires Enabled(c, Flush)
    ensures Balanced(c, Apply(c, Flush), x)
  {
    hide Deliver, Located, SentCount;
    DeliverConserves(c, ParamsUpdate(c.main.pending.value), x);
  }

  lemma SendConserves(c: Chan, cmd: Payload, x: GcItem)
    requires Enabled(c, Send(cmd))
    ensures Balanced(c, Apply(c, Send(cmd)), x)
  {
    hide Deliver, Located, SentCount;
    DeliverConserves(c, cmd, x);
    NotedOnly(Deliver(c, cmd), cmd, x);
  }

  lemma NotedOnly(c: Chan, cmd: Payload, x: GcItem)
    ensures var d := c.(hist := c.hist.(accepted := c.hist.accepted + [cmd], models := c.hist.models + ModelsIn(cmd)));
            Located(d, x) == Located(c, x) && SentCount(d, x) == SentCount(c, x)
  {
    hide Items, ItemsOf, PendingItems, Owned, RebuildsItems, RebuildItems, SlotItems;
  }

  /** A model that was waiting already is dropped. */
  lemma DeferConserves(c: Chan, m: Rollback.PendingModel, x: GcItem)
    requires Enabled(c, Defer(m))
    ensures Balanced(c, Apply(c, Defer(m)), x)
  {
    hide Items, ItemsOf, PendingItems, Owned, RebuildsItems;
  }

  /** The model moves from the pending slot into the ring; its resampler and stream are new. */
  lemma FlushModelConserves(c: Chan, m: LoadModel, x: GcItem)
    requires Enabled(c, FlushModel(m))
    ensures Balanced(c, Apply(c, FlushModel(m)), x)
  {
    hide Items, ItemsOf, PendingItems, Owned, Rollback.Deferred, RebuildsItems;
    DeliverConserves(c, Load(m), x);
    NothingPending(x);
  }

  lemma StepLocates(c: Chan, a: Action, x: GcItem)
    requires AckInv(c) && ReplayOnlyActive(c) && Enabled(c, a)
    requires !a.Flush? && !a.Send? && !a.Defer? && !a.FlushModel? && !a.SlimSend?
    ensures Located(Apply(c, a), x) == Located(c, x)
  {
    hide AckInv, ReplayOnlyActive, Enabled, Located, Apply;
    match a {
      case ActivateFail => RollbackConserves(c, x);
      case ActivateOk => ActivationConserves(c, x);
      case Deactivate => DeactivationConserves(c, x);
      case Replay => ReplayConserves(c, x);
      case Park => ParkConserves(c, x);
      case SlimPop => SlimPopConserves(c, x);
      case SlimInstall => SlimInstallConserves(c, x);
      case SlimStale => SlimRetireConserves(c, a, x);
      case SlimSupersede => SlimRetireConserves(c, a, x);
      case PopLight => DrainConserves(c, a, x);
      case PopToHand => DrainConserves(c, a, x);
      case Supersede => DrainConserves(c, a, x);
      case InstallSlot => DrainConserves(c, a, x);
      case _ => QuietStep(c, a, x);
    }
  }

  lemma {:induction false} RunConserves(c: Chan, acts: seq<Action>, x: GcItem)
    requires AckInv(c) && ReplayOnlyActive(c) && Runs(c, acts)
    ensures Balanced(c, After(c, acts), x)
    decreases |acts|
  {
    hide AckInv, Apply, Enabled, ReplayOnlyActive, Located, SentCount;
    if acts != [] {
      AckStep(c, acts[0]);
      ReplayStep(c, acts[0]);
      StepConserves(c, acts[0], x);
      RunConserves(Apply(c, acts[0]), acts[1..], x);
    }
  }

  lemma NothingLocatedAtStart(c0: Chan, x: GcItem)
    requires Initial(c0)
    ensures AckInv(c0) && ReplayOnlyActive(c0) && Located(c0, x) == Owned(c0.dsp)[x] && SentCount(c0, x) == 0
  {
    assert ItemsOf([])[x] == 0 && RebuildsItems([])[x] == 0;
  }

  lemma {:induction false} LocatedBalance(c0: Chan, acts: seq<Action>, x: GcItem)
    requires Initial(c0) && Runs(c0, acts)
    ensures Located(After(c0, acts), x) == Owned(c0.dsp)[x] + SentCount(After(c0, acts), x)
  {
    NothingLocatedAtStart(c0, x);
    RunConserves(c0, acts, x);
    hide Located, SentCount, Owned, After, Runs;
  }

  /** How often a resource is anywhere: carried by a command or waiting in a slot, installed, with the
      collector, or freed on the main thread. */
  function Anywhere(c: Chan, x: GcItem): nat {
    (if c.rt.slot.Empty? then 0 else Brings(c.rt.slot.p, x))
    + BringsAll(c.ring, x) + BringsAll(c.rt.recovered, x) + BringsAll(c.cold.staged, x)
    + WaitingHolds(c.cold.pendingModel, x)
    + One(c.slim.slot.Some? && x == ModelItem(c.slim.slot.value.model)) + RebuildsHold(c.slim.ring, x)
    + Installs(c.dsp, x) + c.dsp.retired[x] + c.cold.dropped[x]
  }

  lemma LocatedIsAnywhere(c: Chan, x: GcItem)
    ensures Located(c, x) == Anywhere(c, x)
  {
    hide Items, ItemsOf, Owned, PendingItems, RebuildItems, RebuildsItems, Brings, BringsAll, Installs, One;
    if !c.rt.slot.Empty? { ItemsAreBrought(c.rt.slot.p, x); }
    ItemsOfAreBrought(c.ring, x);
    ItemsOfAreBrought(c.rt.recovered, x);
    ItemsOfAreBrought(c.cold.staged, x);
    PendingAreHeld(c.cold.pendingModel, x);
    RebuildIsHeld(c.slim.slot, x);
    RebuildsAreHeld(c.slim.ring, x);
    OwnedAreInstalled(c.dsp, x);
  }

  /** Conservation over whole runs: every resource is in the rings, the slots, the staging areas, the
      DSP chain, with the collector or among the main thread's frees, all taken together, exactly
      as often as it was installed or retired at the start plus how often a command delivered it, a
      model was deferred or a rebuild was sent; a model that was put aside and sent again is not
      counted twice. */
  lemma NothingLostNothingDuplicated(c0: Chan, acts: seq<Action>, x: GcItem)
    requires Initial(c0) && Runs(c0, acts)
    ensures var c := After(c0, acts);
            Anywhere(c, x) + c.hist.resent[x]
            == Installs(c0.dsp, x) + c0.dsp.retired[x]
               + BringsAll(c.hist.delivered, x) + c.hist.deferred[x] + c.slim.sent[x]
  {
    hide Located, Anywhere, Owned, After, Runs, ItemsOf, BringsAll, Installs;
    LocatedBalance(c0, acts, x);
    LocatedIsAnywhere(After(c0, acts), x);
    OwnedAreInstalled(c0.dsp, x);
    ItemsOfAreBrought(After(c0, acts).hist.delivered, x);
  }

  // ---------- generations ----------

  predicate StampedRebuild(r: Rebuild) { r.model.born == r.generation }

  predicate AllStamped(ps: seq<Payload>) { forall i :: 0 <= i < |ps| ==> Stamped(ps[i]) }

  predicate StampedPending(m: Option<Rollback.PendingModel>) {
    m.Some? && m.value.modelL.Some? ==> m.value.modelL.value.born == m.value.generation
  }

  predicate StampsInv(c: Chan) {
    GenerationMatches(c.dsp) && StampedPending(c.cold.pendingModel)
    && AllStamped(Waiting(c)) && AllStamped(c.rt.recovered) && AllStamped(c.cold.staged)
    && (forall i :: 0 <= i < |c.slim.ring| ==> StampedRebuild(c.slim.ring[i]))
    && (c.slim.slot.Some? ==> StampedRebuild(c.slim.slot.value))
  }

  /** The main thread stamps what it sends. */
  predicate SendsStamped(a: Action) {
    (a.Send? ==> Stamped(a.cmd)) && (a.Defer? ==> StampedPending(Some(a.model)))
    && (a.SlimSend? ==> StampedRebuild(a.rebuild))
  }

  lemma {:induction false} InstallAllKeepsGeneration(d: Dsp, ps: seq<Payload>)
    requires GenerationMatches(d) && AllStamped(ps)
    ensures GenerationMatches(InstallAll(d, ps))
    decreases |ps|
  {
    if ps != [] {
      InstallKeepsGeneration(d, ps[0]);
      InstallAllKeepsGeneration(Install(d, ps[0]), ps[1..]);
    }
  }

  lemma NonModelsStamped(ring: seq<Payload>)
    requires AllStamped(ring)
    ensures AllStamped(Rollback.NonModels(ring))
  {
    Rollback.StagedInRingOrder(ring);
  }

  lemma SlotStamped(slot: Option<Rollback.PendingModel>, ring: seq<Payload>)
    requires StampedPending(slot) && AllStamped(ring)
    ensures StampedPending(Rollback.SlotAfter(slot, ring))
  {
    Rollback.NewestIsMaximum(ring);
    if Rollback.NewestModel(ring).Some? {
      var k: int :| Rollback.IsNewest(ring, k)
                    && Rollback.NewestModel(ring) == Some(Rollback.Deferred(ring[k].load));
      assert Stamped(ring[k]);
    }
  }

  lemma StampsStep(c: Chan, a: Action)
    requires AckInv(c) && StampsInv(c) && Enabled(c, a) && SendsStamped(a)
    ensures StampsInv(Apply(c, a))
  {
    hide StampsInv, AckInv, Apply, Enabled;
    match a {
      case Flush => StampsDelivered(c, a);
      case Send(_) => StampsDelivered(c, a);
      case FlushModel(_) => StampsDelivered(c, a);
      case PopLight => StampsDrained(c, a);
      case PopToHand => StampsPopped(c);
      case Supersede => StampsDrained(c, a);
      case InstallSlot => StampsDrained(c, a);
      case ActivateOk => StampsActivated(c);
      case ActivateFail => StampsRolledBack(c);
      case Deactivate => StampsDeactivated(c);
      case Replay => StampsReplayed(c);
      case _ => StampsOtherwise(c, a);
    }
  }

  lemma StampsDelivered(c: Chan, a: Action)
    requires StampsInv(c) && Enabled(c, a) && SendsStamped(a) && (a.Flush? || a.Send? || a.FlushModel?)
    ensures StampsInv(Apply(c, a))
  {
    var p := if a.Flush? then ParamsUpdate(c.main.pending.value) else if a.Send? then a.cmd else Load(a.load);
    assert Waiting(Apply(c, a)) == Waiting(c) + [p];
  }

  lemma StampsPopped(c: Chan)
    requires StampsInv(c) && Enabled(c, PopToHand)
    ensures StampsInv(Apply(c, PopToHand))
  {
    hide Stamped, GenerationMatches;
    PopKeepsOrder(c);
  }

  lemma StampsDrained(c: Chan, a: Action)
    requires StampsInv(c) && Enabled(c, a) && (a.PopLight? || a.Supersede? || a.InstallSlot?)
    ensures StampsInv(Apply(c, a))
  {
    hide Apply, Enabled, Install, Stamped, Discard, GenerationMatches, Waiting;
    ResolvedWaiting(c, a);
    DrainLeavesRest(c, a);
    var p := Waiting(c)[0];
    InstallKeepsGeneration(c.dsp, p);
    DiscardKeepsGeneration(c.dsp, p);
  }

  lemma DiscardKeepsGeneration(d: Dsp, p: Payload)
    ensures GenerationMatches(Discard(d, p)) == GenerationMatches(d)
  {}

  lemma DrainLeavesRest(c: Chan, a: Action)
    requires Enabled(c, a) && (a.PopLight? || a.Supersede? || a.InstallSlot?)
    ensures var d := Apply(c, a);
            Waiting(c) != [] && d.rt.recovered == c.rt.recovered && d.cold == c.cold && d.slim == c.slim
            && d.dsp == if a.Supersede? then Discard(c.dsp, Waiting(c)[0]) else Install(c.dsp, Waiting(c)[0])
  {
    hide Install, Discard;
    assert Waiting(c)[0] == if a.PopLight? then c.ring[0] else c.rt.slot.p;
  }

  lemma StampsActivated(c: Chan)
    requires AckInv(c) && StampsInv(c) && Enabled(c, ActivateOk)
    ensures StampsInv(Apply(c, ActivateOk))
  {
    SlotEmptyInactive(c, ActivateOk);
    hide Apply, Enabled, AckInv, Stamped;
    ActivationFields(c);
    ActivationLeavesSlim(c);
    assert Waiting(Apply(c, ActivateOk)) == Waiting(c);
  }

  lemma SlotEmptyInactive(c: Chan, a: Action)
    requires AckInv(c) && Enabled(c, a) && (a.ActivateOk? || a.ActivateFail?)
    ensures c.rt.slot.Empty? && Waiting(c) == c.ring
  {}

  lemma ActivationLeavesSlim(c: Chan)
    requires Enabled(c, ActivateOk)
    ensures Apply(c, ActivateOk).slim == c.slim
  {}

  lemma StampsRolledBack(c: Chan)
    requires AckInv(c) && StampsInv(c) && Enabled(c, ActivateFail)
    ensures StampsInv(Apply(c, ActivateFail))
  {
    SlotEmptyInactive(c, ActivateFail);
    hide Apply, Enabled, AckInv, Stamped, StampedPending, Freed, BatchAt, Rollback.NonModels, Rollback.SlotAfter;
    RollbackFields(c);
    NonModelsStamped(c.ring);
    SlotStamped(c.cold.pendingModel, c.ring);
    assert Waiting(Apply(c, ActivateFail)) == [];
  }

  lemma StampsDeactivated(c: Chan)
    requires StampsInv(c) && Enabled(c, Deactivate)
    ensures StampsInv(Apply(c, Deactivate))
  {
    hide Apply, Enabled, Stamped, ItemsOf, SlotItems, RebuildItems;
    DeactivationClears(c);
    DeactivationDrops(c);
    DeactivateShrinks(c);
  }

  lemma StampsReplayed(c: Chan)
    requires StampsInv(c) && Enabled(c, Replay)
    ensures StampsInv(Apply(c, Replay))
  {
    InstallAllKeepsGeneration(c.dsp, c.rt.recovered);
    hide InstallAll, Stamped;
  }

  /** A step that leaves commands, rebuilds and models where they were, or moves a rebuild. */
  lemma StampsOtherwise(c: Chan, a: Action)
    requires StampsInv(c) && Enabled(c, a) && SendsStamped(a)
    requires !a.Flush? && !a.Send? && !a.FlushModel?
    requires !a.PopLight? && !a.PopToHand? && !a.Supersede? && !a.InstallSlot?
    requires !a.ActivateOk? && !a.ActivateFail? && !a.Deactivate? && !a.Replay?
    ensures StampsInv(Apply(c, a))
  {
    hide Stamped;
  }

  lemma DeactivateShrinks(c: Chan)
    requires Enabled(c, Deactivate)
    ensures Waiting(Apply(c, Deactivate)) == c.ring
    ensures AllStamped(Waiting(c)) ==> AllStamped(c.ring)
  {
    hide Apply, Enabled, Stamped;
    DeactivationClears(c);
    assert forall i :: 0 <= i < |c.ring| ==> c.ring[i] == Waiting(c)[|Held(c.rt.slot)| + i];
  }

  predicate StampedRun(acts: seq<Action>) {
    forall i :: 0 <= i < |acts| ==> SendsStamped(acts[i])
  }

  lemma {:induction false} StampsRun(c: Chan, acts: seq<Action>)
    requires AckInv(c) && StampsInv(c) && Runs(c, acts) && StampedRun(acts)
    ensures AckInv(After(c, acts)) && StampsInv(After(c, acts))
    decreases |acts|
  {
    hide StampsInv, AckInv, Apply;
    if acts != [] {
      AckStep(c, acts[0]);
      StampsStep(c, acts[0]);
      StampsRun(Apply(c, acts[0]), acts[1..]);
    }
  }

  /** Across both rings the left model always belongs to the active generation, and a rebuild is
      installed over a model of its own generation only.  `ChannelOrigins` says which model. */
  lemma LeftModelIsOfActiveGeneration(c0: Chan, acts: seq<Action>)
    requires Initial(c0) && GenerationMatches(c0.dsp) && Runs(c0, acts) && StampedRun(acts)
    ensures var c := After(c0, acts);
            GenerationMatches(c.dsp)
            && (Enabled(c, SlimInstall) ==>
                  c.slim.slot.value.model.born == c.dsp.chain.generation
                  && (c.dsp.chain.modelL.Some? ==>
                        c.dsp.chain.modelL.value.born == c.slim.slot.value.model.born))
  {
    StampsRun(c0, acts);
  }

  // ---------- latency and tail ----------

  /** The latency figures match what is installed, the reported tail is the last change,
      and outside a callback the host reads it. */
  predicate ReportsInv(c: Chan, initial: nat) {
    LatencyConsistent(c.dsp) && TailReported(c.dsp.side, initial)
  }

  lemma {:induction false} InstallAllReports(d: Dsp, ps: seq<Payload>, initial: nat)
    requires LatencyConsistent(d) && TailReported(d.side, initial)
    ensures LatencyConsistent(InstallAll(d, ps)) && TailReported(InstallAll(d, ps).side, initial)
    decreases |ps|
  {
    if ps != [] {
      InstallKeepsLatency(d, ps[0]);
      InstallReportsTail(d, ps[0], initial);
      InstallAllReports(Install(d, ps[0]), ps[1..], initial);
    }
  }

  /** Outside a callback's end the host reads what it was last given. */
  predicate CallbackReported(d: Dsp) {
    d.side.currentLatency == d.latency.cached
    && TailReader(d) == d.side.lastTail
    && d.side.lastTail == if d.latency.cached + d.latency.irTail <= U32_MAX
                          then d.latency.cached + d.latency.irTail else U32_MAX
  }

  lemma ReportsStep(c: Chan, a: Action, initial: nat)
    requires ReportsInv(c, initial) && Enabled(c, a)
    ensures ReportsInv(Apply(c, a), initial)
    ensures a.EndCallback? ==> CallbackReported(Apply(c, a).dsp)
  {
    hide Install, InstallAll, FinishCallback, Adjusted, LatencyConsistent, TailReported, Freed, TailReader;
    match a {
      case Replay => InstallAllReports(c.dsp, c.rt.recovered, initial);
      case PopLight => InstallKeepsLatency(c.dsp, c.ring[0]); InstallReportsTail(c.dsp, c.ring[0], initial);
      case InstallSlot => InstallKeepsLatency(c.dsp, c.rt.slot.p); InstallReportsTail(c.dsp, c.rt.slot.p, initial);
      case EndCallback => CallbackEndAgrees(c.dsp, initial); CallbackLeavesFigures(c.dsp);
      case Adjust(e) => AdjustedLeavesReports(c.dsp, e, initial);
      case _ => FiguresElsewhere(c, a); SameReports(c.dsp, Apply(c, a).dsp, initial);
    }
  }

  lemma CallbackLeavesFigures(d: Dsp)
    ensures FinishCallback(d).latency == d.latency
  {}

  /** Equal in everything the reports depend on. */
  predicate SameFigures(d: Dsp, e: Dsp) {
    (e.cfg, e.chain.stream, e.os, e.ir, e.latency) == (d.cfg, d.chain.stream, d.os, d.ir, d.latency)
    && e.side.lastTail == d.side.lastTail && e.side.tailCalls == d.side.tailCalls
  }

  lemma HandlersLeaveFigures(d: Dsp)
    ensures forall p :: SameFigures(d, Discard(d, p))
    ensures forall r :: SameFigures(d, InstallRebuild(d, r)) && SameFigures(d, RetireRebuild(d, r))
  {
    hide Items, ModelItems;
  }

  lemma FiguresElsewhere(c: Chan, a: Action)
    requires Enabled(c, a) && !a.Replay? && !a.PopLight? && !a.InstallSlot? && !a.EndCallback? && !a.Adjust?
    ensures SameFigures(c.dsp, Apply(c, a).dsp)
  {
    hide Install, InstallAll, Adjusted, Freed, ItemsOf, SlotItems, RebuildItems, PendingItems, BatchAt;
    hide FinishCallback, Discard, InstallRebuild, RetireRebuild, Rollback.NonModels, Rollback.SlotAfter;
    HandlersLeaveFigures(c.dsp);
  }

  lemma AdjustedLeavesReports(d: Dsp, e: ParamEvent, initial: nat)
    requires LatencyConsistent(d) && TailReported(d.side, initial)
    ensures LatencyConsistent(Adjusted(d, e)) && TailReported(Adjusted(d, e).side, initial)
  {
    hide LatencyConsistent, TailReported, Adjusted;
    AdjustedKeeps(d, e);
    SameReports(d, Adjusted(d, e), initial);
  }

  lemma SameReports(d: Dsp, e: Dsp, initial: nat)
    requires LatencyConsistent(d) && TailReported(d.side, initial)
    requires SameFigures(d, e)
    ensures LatencyConsistent(e) && TailReported(e.side, initial)
  {}

  lemma {:induction false} ReportsRun(c: Chan, acts: seq<Action>, initial: nat)
    requires ReportsInv(c, initial) && Runs(c, acts)
    ensures ReportsInv(After(c, acts), initial)
    ensures acts != [] && acts[|acts| - 1].EndCallback? ==> CallbackReported(After(c, acts).dsp)
    decreases |acts|
  {
    hide ReportsInv, Apply, Enabled, CallbackReported;
    if acts != [] {
      ReportsStep(c, acts[0], initial);
      ReportsRun(Apply(c, acts[0]), acts[1..], initial);
      if |acts| == 1 { assert After(c, acts) == Apply(c, acts[0]); }
    }
  }

  /** After every run: the cached latency is stream plus oversampler plus impulse response, the dry
      path is delayed by it, the published contributions match, the tail-changed calls are exactly
      the changes of the tail, and after a callback the host reads the latency and the tail it was
      told. */
  lemma ReportsAreConsistent(c0: Chan, acts: seq<Action>)
    requires Initial(c0) && LatencyConsistent(c0.dsp) && c0.dsp.side.tailCalls == [] && Runs(c0, acts)
    ensures var d := After(c0, acts).dsp;
            var partition := if d.ir.Some? then d.ir.value.partitionSize else 0;
            var tail := if d.ir.Some? then d.ir.value.partitions * d.ir.value.blockLatency else 0;
            var sum := d.chain.stream.latency + d.os.osL.latency + partition;
            LatencyConsistent(d) && TailReported(d.side, c0.dsp.side.lastTail)
            && (sum <= U32_MAX ==> d.latency.cached == sum && d.latency.ir == partition)
            && (tail <= U32_MAX ==> d.latency.irTail == tail)
            && (d.latency.cached <= d.cfg.dryCapacity ==> d.latency.dryDelay == d.latency.cached)
            && (acts != [] && acts[|acts| - 1].EndCallback? ==> CallbackReported(d))
  {
    hide CallbackReported;
    ReportsRun(c0, acts, c0.dsp.side.lastTail);
    FiguresAreExact(After(c0, acts).dsp);
  }

  // ---------- the pending restart ----------

  /** Whether one of the commands changes the requested factor. */
  function ChangesIn(d: Dsp, ps: seq<Payload>): bool
    decreases |ps|
  {
    ps != []
    && (Install(d, ps[0]).control.params.oversample != d.control.params.oversample
        || ChangesIn(Install(d, ps[0]), ps[1..]))
  }

  lemma {:induction false} InstallAllTracks(d: Dsp, ps: seq<Payload>, changed: bool, before: PendingRestart)
    requires RestartTracksRequest(d, changed, before)
    ensures RestartTracksRequest(InstallAll(d, ps), changed || ChangesIn(d, ps), before)
    decreases |ps|
  {
    hide RestartTracksRequest, Install;
    if ps != [] {
      InstallTracks(d, ps[0], changed, before);
      var e := Install(d, ps[0]);
      InstallAllTracks(e, ps[1..], changed || e.control.params.oversample != d.control.params.oversample, before);
    }
  }

  /** Whether the requested factor has changed since the last successful activation. */
  function ChangedBy(c: Chan, a: Action, changed: bool): bool
    requires Enabled(c, a)
  {
    match a
    case ActivateOk => false
    case Replay => changed || ChangesIn(c.dsp, c.rt.recovered)
    case _ => changed || Apply(c, a).dsp.control.params.oversample != c.dsp.control.params.oversample
  }

  function ChangedOver(c: Chan, acts: seq<Action>, changed: bool): bool
    requires Runs(c, acts)
    decreases |acts|
  {
    if acts == [] then changed else ChangedOver(Apply(c, acts[0]), acts[1..], ChangedBy(c, acts[0], changed))
  }

  /** What is pending without a change: a successful activation has taken the request. */
  function BeforeBy(a: Action, before: PendingRestart): PendingRestart {
    if a.ActivateOk? then NotPending else before
  }

  function BeforeOver(acts: seq<Action>, before: PendingRestart): PendingRestart
    decreases |acts|
  {
    if acts == [] then before else BeforeOver(acts[1..], BeforeBy(acts[0], before))
  }

  lemma {:induction false} BeforeMeans(acts: seq<Action>, before: PendingRestart)
    ensures BeforeOver(acts, before) == if ActivateOk in acts then NotPending else before
    decreases |acts|
  {
    if acts != [] {
      BeforeMeans(acts[1..], BeforeBy(acts[0], before));
      assert acts == [acts[0]] + acts[1..];
    }
  }

  lemma RestartStep(c: Chan, a: Action, changed: bool, before: PendingRestart)
    requires Enabled(c, a) && RestartTracksRequest(c.dsp, changed, before)
    ensures RestartTracksRequest(Apply(c, a).dsp, ChangedBy(c, a, changed), BeforeBy(a, before))
  {
    hide RestartTracksRequest, Install, InstallAll, FinishCallback, Adjusted, Freed, ChangesIn;
    match a {
      case PopLight => InstallTracks(c.dsp, c.ring[0], changed, before);
      case InstallSlot => InstallTracks(c.dsp, c.rt.slot.p, changed, before);
      case Replay => InstallAllTracks(c.dsp, c.rt.recovered, changed, before);
      case Adjust(e) => AdjustedTracks(c.dsp, e, changed, before);
      case _ => RestartElsewhere(c, a, changed, before);
    }
  }

  /** Equal in the parameters, and in all that is told what they are. */
  predicate SameControl(a: Dsp, b: Dsp) {
    a.cfg == b.cfg && a.control == b.control && a.side.adaptive == b.side.adaptive
    && a.side.precision == b.side.precision && a.side.offline == b.side.offline
  }

  lemma HandlersLeaveControl(d: Dsp)
    ensures SameControl(FinishCallback(d), d) && FinishCallback(d).side.pendingRestart == d.side.pendingRestart
    ensures forall p :: SameControl(Discard(d, p), d) && Discard(d, p).side == d.side
    ensures forall r :: SameControl(InstallRebuild(d, r), d) && InstallRebuild(d, r).side == d.side
    ensures forall r :: SameControl(RetireRebuild(d, r), d) && RetireRebuild(d, r).side == d.side
  {
    hide Items, ModelItems, TailOf;
  }

  lemma ControlElsewhere(c: Chan, a: Action)
    requires Enabled(c, a) && !a.PopLight? && !a.InstallSlot? && !a.Replay? && !a.Adjust?
    ensures var d := Apply(c, a).dsp;
            SameControl(d, c.dsp)
            && d.side.pendingRestart == if a.ActivateOk? then Encode(NotPending) else c.dsp.side.pendingRestart
  {
    hide Install, InstallAll, Adjusted, Freed, ItemsOf, SlotItems, RebuildItems, PendingItems, BatchAt;
    hide FinishCallback, Discard, InstallRebuild, RetireRebuild, Rollback.NonModels, Rollback.SlotAfter;
    HandlersLeaveControl(c.dsp);
  }

  lemma RestartElsewhere(c: Chan, a: Action, changed: bool, before: PendingRestart)
    requires Enabled(c, a) && RestartTracksRequest(c.dsp, changed, before)
    requires !a.PopLight? && !a.InstallSlot? && !a.Replay? && !a.Adjust?
    ensures RestartTracksRequest(Apply(c, a).dsp, ChangedBy(c, a, changed), BeforeBy(a, before))
  {
    hide Enabled, Apply;
    ControlElsewhere(c, a);
  }

  lemma {:induction false} RestartRun(c: Chan, acts: seq<Action>, changed: bool, before: PendingRestart)
    requires Runs(c, acts) && RestartTracksRequest(c.dsp, changed, before)
    ensures RestartTracksRequest(After(c, acts).dsp, ChangedOver(c, acts, changed), BeforeOver(acts, before))
    decreases |acts|
  {
    hide RestartTracksRequest, Enabled, Apply, ChangedBy, BeforeBy;
    if acts != [] {
      RestartStep(c, acts[0], changed, before);
      RestartRun(Apply(c, acts[0]), acts[1..], ChangedBy(c, acts[0], changed), BeforeBy(acts[0], before));
    }
  }

  /** Over every run, through host events, the GUI, the ring and the replay of recovered commands
      alike: once the requested factor has changed since the last successful activation, the
      pending restart is the factor requested now; and without such a change nothing is pending
      after an activation, or still what was pending at the start. */
  lemma PendingRestartIsCurrent(c0: Chan, acts: seq<Action>)
    requires Initial(c0) && Runs(c0, acts)
    ensures var d := After(c0, acts).dsp;
            Decode(d.side.pendingRestart)
            == if d.cfg.bufferSize > 0 && ChangedOver(c0, acts, false) then Pending(d.control.params.oversample)
               else if ActivateOk in acts then NotPending
               else Decode(c0.dsp.side.pendingRestart)
  {
    var before := Decode(c0.dsp.side.pendingRestart);
    RestartRun(c0, acts, false, before);
    BeforeMeans(acts, before);
  }

  // ---------- the controllers ----------

  /** Whether one of the commands changes the adaptive mode. */
  function ModeChangesIn(d: Dsp, ps: seq<Payload>): bool
    decreases |ps|
  {
    ps != []
    && (Install(d, ps[0]).control.params.adaptive != d.control.params.adaptive
        || ModeChangesIn(Install(d, ps[0]), ps[1..]))
  }

  lemma {:induction false} InstallAllKeepsControllers(d: Dsp, ps: seq<Payload>, drifted: bool)
    requires Follows(d) && ModeTracked(d, drifted)
    ensures Follows(InstallAll(d, ps)) && ModeTracked(InstallAll(d, ps), drifted && !ModeChangesIn(d, ps))
    decreases |ps|
  {
    hide Follows, ModeTracked, Install;
    if ps != [] {
      InstallKeepsControllers(d, ps[0], drifted);
      var e := Install(d, ps[0]);
      InstallAllKeepsControllers(e, ps[1..], drifted && e.control.params.adaptive == d.control.params.adaptive);
    }
  }

  /** Whether the adaptive mode has drifted from its parameter.  Only coming back from offline
      rendering starts a drift; a changed mode, from wherever, or a read of the cells ends it. */
  function DriftBy(c: Chan, a: Action, drifted: bool): bool
    requires Enabled(c, a)
  {
    match a
    case PopLight => drifted && !ModeChangesIn(c.dsp, [c.ring[0]])
    case InstallSlot => drifted && !ModeChangesIn(c.dsp, [c.rt.slot.p])
    case Replay => drifted && !ModeChangesIn(c.dsp, c.rt.recovered)
    case Adjust(e) => DriftedBy(c.dsp, e, drifted)
    case _ => drifted
  }

  function DriftOver(c: Chan, acts: seq<Action>, drifted: bool): bool
    requires Runs(c, acts)
    decreases |acts|
  {
    if acts == [] then drifted else DriftOver(Apply(c, acts[0]), acts[1..], DriftBy(c, acts[0], drifted))
  }

  lemma OneChange(d: Dsp, p: Payload)
    ensures ModeChangesIn(d, [p]) <==> Install(d, p).control.params.adaptive != d.control.params.adaptive
  {
    hide Install;
    assert [p][1..] == [];
  }

  lemma ControllersStep(c: Chan, a: Action, drifted: bool)
    requires Enabled(c, a) && Follows(c.dsp) && ModeTracked(c.dsp, drifted)
    ensures Follows(Apply(c, a).dsp) && ModeTracked(Apply(c, a).dsp, DriftBy(c, a, drifted))
  {
    hide Follows, ModeTracked, Install, InstallAll, FinishCallback, Adjusted, Freed, ModeChangesIn, DriftedBy;
    match a {
      case PopLight => InstallKeepsControllers(c.dsp, c.ring[0], drifted); OneChange(c.dsp, c.ring[0]);
      case InstallSlot => InstallKeepsControllers(c.dsp, c.rt.slot.p, drifted); OneChange(c.dsp, c.rt.slot.p);
      case Replay => InstallAllKeepsControllers(c.dsp, c.rt.recovered, drifted);
      case Adjust(e) => AdjustedControllers(c.dsp, e, drifted);
      case _ => ControllersElsewhere(c, a, drifted);
    }
  }

  lemma ControllersElsewhere(c: Chan, a: Action, drifted: bool)
    requires Enabled(c, a) && Follows(c.dsp) && ModeTracked(c.dsp, drifted)
    requires !a.PopLight? && !a.InstallSlot? && !a.Replay? && !a.Adjust?
    ensures Follows(Apply(c, a).dsp) && ModeTracked(Apply(c, a).dsp, drifted)
  {
    hide Enabled, Apply;
    ControlElsewhere(c, a);
  }

  lemma {:induction false} ControllersRun(c: Chan, acts: seq<Action>, drifted: bool)
    requires Runs(c, acts) && Follows(c.dsp) && ModeTracked(c.dsp, drifted)
    ensures Follows(After(c, acts).dsp) && ModeTracked(After(c, acts).dsp, DriftOver(c, acts, drifted))
    decreases |acts|
  {
    hide Follows, ModeTracked, Enabled, Apply, DriftBy;
    if acts != [] {
      ControllersStep(c, acts[0], drifted);
      ControllersRun(Apply(c, acts[0]), acts[1..], DriftBy(c, acts[0], drifted));
    }
  }

  /** Over every run the slim override and the activation functions are what the parameters say;
      and rendering in real time, the adaptive controller runs the parameter's mode if and only if
      it has not drifted since. */
  lemma ControllersFollow(c0: Chan, acts: seq<Action>)
    requires Initial(c0) && Runs(c0, acts) && Follows(c0.dsp) && ModeTracked(c0.dsp, false)
    ensures var d := After(c0, acts).dsp;
            Follows(d)
            && (!d.side.offline ==>
                  (d.side.adaptive.mode == d.control.params.adaptive <==> !DriftOver(c0, acts, false)))
  {
    ControllersRun(c0, acts, false);
  }
}
