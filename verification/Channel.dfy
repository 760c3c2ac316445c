/** The command channel end to end: coalescing producer, bounded ring, budgeted drain
    with parking and supersession, acknowledgment, the slimmable ring, and activation,
    deactivation and failed activation.

    The engine's drain is not part of the repository; here it is every order of the steps
    its hooks allow.  Main-thread steps interleave with it freely. */
module Channel {
  import opened Options
  import opened Payloads
  import opened SwapDomain
  import Rollback

  datatype Slot = Empty | InHand(p: Payload) | Parked(p: Payload)

  datatype Producer = Producer(
    pending: Option<Params>,      // the coalescing buffer
    nextSeq: nat,
    uncounted: nat)               // 1 between a push and its sequence number

  datatype Consumer = Consumer(
    slot: Slot,
    processed: nat,               // processed_seq
    resolved: nat,                // of the running drain
    budget: nat,
    inside: bool,                 // inside a callback's drain
    recovered: seq<Payload>)      // moved in by `activate`, replayed by the first callback

  datatype Rebuild = Rebuild(generation: nat, model: Model)

  datatype Slim = Slim(ring: seq<Rebuild>, slot: Option<Rebuild>, sent: multiset<GcItem>)

  datatype Cold = Cold(
    lastAck: nat,
    staged: seq<Payload>,
    pendingModel: Option<Rollback.PendingModel>,
    dropped: multiset<GcItem>)    // freed on the main thread

  /** What became of a command in the ring. */
  datatype Fate = Installed | Superseded | Recovered | DroppedParked

  /** Positions in `delivered` of the commands taken out by rollbacks, by where they are now. */
  datatype Whereabouts = Whereabouts(
    staged: seq<nat>,             // of the staged commands, in their order
    recovered: seq<nat>,          // of those moved in by `activate`
    replayed: seq<nat>,           // installed by a replay
    lost: seq<nat>)               // dropped by a deactivation before any replay

  /** History: nothing in the code reads it. */
  datatype History = History(
    accepted: seq<Payload>,       // every snapshot pushed and every command accepted
    delivered: seq<Payload>,      // everything that ever entered the ring
    fates: seq<Fate>,             // of delivered[0], delivered[1], ...
    at: Whereabouts,
    models: seq<Rollback.PendingModel>,   // every model handed over, in a command or to wait
    rebuilds: seq<Rebuild>,       // every rebuild sent
    deferred: multiset<GcItem>,   // models put to wait without having been in the ring
    resent: multiset<GcItem>)     // models that went from the pending slot into the ring

  datatype Chan = Chan(
    capacity: nat,
    active: bool,
    ring: seq<Payload>,
    main: Producer,
    rt: Consumer,
    slim: Slim,
    cold: Cold,
    dsp: Dsp,
    hist: History)

  const SLIM_CAPACITY: nat := 4
  const SWAPS_PER_CALLBACK: nat := 1

  datatype Action =
    // main thread
    | PushParams(params: Params) | Flush | Send(cmd: Payload) | Count
    | Defer(model: Rollback.PendingModel)     // a load that found the ring full, or no buffer size yet
    | FlushModel(load: LoadModel)             // the waiting model, with a resampler and a stream built for it
    | SlimSend(rebuild: Rebuild)
    // audio thread
    | Replay | BeginCallback | PopLight | PopToHand | Supersede | InstallSlot | Park
    | SlimPop | SlimInstall | SlimStale | SlimSupersede | EndCallback
    | Adjust(event: ParamEvent)
    // activation boundaries
    | ActivateOk | ActivateFail | Deactivate

  predicate Enabled(c: Chan, a: Action) {
    match a
    case PushParams(_) => true
    case Flush => c.main.pending.Some? && |c.ring| < c.capacity && c.main.uncounted == 0
    case Send(_) => c.main.pending.None? && |c.ring| < c.capacity && c.main.uncounted == 0
    case FlushModel(m) =>
      c.cold.pendingModel == Some(Rollback.Deferred(m))
      && c.main.pending.None? && |c.ring| < c.capacity && c.main.uncounted == 0
    case Count => c.main.uncounted > 0
    case Defer(_) => (|c.ring| >= c.capacity || !c.active) && c.main.uncounted == 0
    case SlimSend(_) => |c.slim.ring| < SLIM_CAPACITY
    case Replay => c.active && !c.rt.inside && c.rt.recovered != []
    case BeginCallback => c.active && !c.rt.inside && c.rt.recovered == []
    case PopLight => c.rt.inside && c.rt.slot.Empty? && c.ring != [] && !IsStructural(c.ring[0])
    case PopToHand => c.rt.inside && c.rt.slot.Empty? && c.ring != [] && IsStructural(c.ring[0])
    case Supersede => c.rt.inside && !c.rt.slot.Empty? && c.ring != [] && SameKey(c.rt.slot.p, c.ring[0])
    case InstallSlot => c.rt.inside && !c.rt.slot.Empty? && c.rt.budget > 0
    case Park => c.rt.inside && c.rt.slot.InHand?
    case SlimPop => c.rt.inside && c.slim.slot.None? && c.slim.ring != []
    case SlimInstall =>
      c.rt.inside && c.slim.slot.Some? && c.rt.budget > 0 && c.slim.slot.value.generation == c.dsp.chain.generation
    case SlimStale => c.rt.inside && c.slim.slot.Some? && c.slim.slot.value.generation != c.dsp.chain.generation
    case SlimSupersede =>
      c.rt.inside && c.slim.slot.Some? && c.slim.ring != []
      && c.slim.ring[0].generation == c.slim.slot.value.generation
    case EndCallback => c.rt.inside && !c.rt.slot.InHand?
    case Adjust(e) => c.active || FromGui(e)
    case ActivateOk => !c.active && c.main.uncounted == 0
    case ActivateFail => !c.active && c.main.uncounted == 0
    case Deactivate => c.active && !c.rt.inside && c.main.uncounted == 0
  }

  function SlotItems(s: Slot): multiset<GcItem> {
    if s.Empty? then multiset{} else Items(s.p)
  }

  function PendingItems(m: Option<Rollback.PendingModel>): multiset<GcItem> {
    if m.Some? then ModelItems(m.value.modelL) + ModelItems(m.value.modelR) else multiset{}
  }

  function RebuildItems(r: Option<Rebuild>): multiset<GcItem> {
    if r.Some? then multiset{ModelItem(r.value.model)} else multiset{}
  }

  function RebuildsItems(rs: seq<Rebuild>): multiset<GcItem> {
    if rs == [] then multiset{} else multiset{ModelItem(rs[0].model)} + RebuildsItems(rs[1..])
  }

  /** A resolved command takes its sequence slot: a parked one takes it only now. */
  function Resolve(c: Chan, dsp: Dsp, fate: Fate): Chan {
    c.(dsp := dsp,
       rt := c.rt.(slot := Empty, resolved := c.rt.resolved + 1,
                   processed := if c.rt.slot.Parked? then c.rt.processed + 1 else c.rt.processed),
       hist := c.hist.(fates := c.hist.fates + [fate]))
  }

  function Deliver(c: Chan, p: Payload): Chan {
    c.(ring := c.ring + [p], main := c.main.(pending := None, uncounted := 1),
       hist := c.hist.(delivered := c.hist.delivered + [p]))
  }

  function PopHead(c: Chan): Chan
    requires c.ring != []
  {
    c.(ring := c.ring[1..], rt := c.rt.(processed := c.rt.processed + 1, slot := InHand(c.ring[0])))
  }

  function InstallRebuild(d: Dsp, r: Rebuild): Dsp {
    d.(chain := d.chain.(modelL := Some(r.model)), retired := d.retired + ModelItems(d.chain.modelL))
  }

  function RetireRebuild(d: Dsp, r: Rebuild): Dsp {
    d.(retired := d.retired + multiset{ModelItem(r.model)})
  }

  function Repeat(f: Fate, n: nat): seq<Fate> { seq(n, _ => f) }

  function Shifted(at: seq<nat>, start: nat): seq<nat> {
    seq(|at|, i requires 0 <= i < |at| => at[i] + start)
  }

  /** Where the commands are that a rollback stages now. */
  function BatchAt(c: Chan): seq<nat> { Shifted(Rollback.NonModelPositions(c.ring), |c.hist.fates|) }

  /** What a rollback frees: the two rate-dependent boxes of every recovered model, and
      every model that is not the newest. */
  function Freed(c: Chan): multiset<GcItem> {
    ItemsOf(c.ring) + PendingItems(c.cold.pendingModel)
    - ItemsOf(Rollback.NonModels(c.ring)) - PendingItems(Rollback.SlotAfter(c.cold.pendingModel, c.ring))
  }

  function ModelsIn(p: Payload): seq<Rollback.PendingModel> {
    if LoadOf(p).Some? then [Rollback.Deferred(LoadOf(p).value)] else []
  }

  function Apply(c: Chan, a: Action): Chan
    requires Enabled(c, a)
  {
    match a
    case PushParams(p) =>
      c.(main := c.main.(pending := Some(p)), hist := c.hist.(accepted := c.hist.accepted + [ParamsUpdate(p)]))
    case Flush => Deliver(c, ParamsUpdate(c.main.pending.value))
    case Send(cmd) =>
      var d := Deliver(c, cmd);
      d.(hist := d.hist.(accepted := d.hist.accepted + [cmd],
                         models := d.hist.models + ModelsIn(cmd)))
    case Defer(m) =>
      c.(cold := c.cold.(pendingModel := Some(m), dropped := c.cold.dropped + PendingItems(c.cold.pendingModel)),
         hist := c.hist.(models := c.hist.models + [m], deferred := c.hist.deferred + PendingItems(Some(m))))
    case FlushModel(m) =>
      var d := Deliver(c, Load(m));
      d.(hist := d.hist.(accepted := d.hist.accepted + [Load(m)],
                         resent := d.hist.resent + PendingItems(c.cold.pendingModel)),
         cold := d.cold.(pendingModel := None))
    case Count => c.(main := c.main.(nextSeq := c.main.nextSeq + 1, uncounted := 0))
    case SlimSend(r) =>
      c.(slim := c.slim.(ring := c.slim.ring + [r], sent := c.slim.sent + multiset{ModelItem(r.model)}),
         hist := c.hist.(rebuilds := c.hist.rebuilds + [r]))
    case Replay =>
      c.(dsp := InstallAll(c.dsp, c.rt.recovered), rt := c.rt.(recovered := []),
         hist := c.hist.(at := c.hist.at.(recovered := [], replayed := c.hist.at.replayed + c.hist.at.recovered)))
    case BeginCallback => c.(rt := c.rt.(inside := true, budget := SWAPS_PER_CALLBACK, resolved := 0))
    case PopLight => Resolve(PopHead(c), Install(c.dsp, c.ring[0]), Installed)
    case PopToHand => PopHead(c)
    case Supersede => Resolve(c, Discard(c.dsp, c.rt.slot.p), Superseded)
    case InstallSlot =>
      var d := Resolve(c, Install(c.dsp, c.rt.slot.p), Installed);
      d.(rt := d.rt.(budget := c.rt.budget - 1))
    case Park =>
      c.(rt := c.rt.(slot := Parked(c.rt.slot.p),
                     processed := if c.rt.processed > 0 then c.rt.processed - 1 else 0))
    case SlimPop => c.(slim := c.slim.(ring := c.slim.ring[1..], slot := Some(c.slim.ring[0])))
    case SlimInstall =>
      c.(dsp := InstallRebuild(c.dsp, c.slim.slot.value), slim := c.slim.(slot := None),
         rt := c.rt.(budget := c.rt.budget - 1))
    case SlimStale => c.(dsp := RetireRebuild(c.dsp, c.slim.slot.value), slim := c.slim.(slot := None))
    case SlimSupersede => c.(dsp := RetireRebuild(c.dsp, c.slim.slot.value), slim := c.slim.(slot := None))
    case EndCallback =>
      c.(dsp := FinishCallback(c.dsp), cold := c.cold.(lastAck := c.cold.lastAck + c.rt.resolved),
         rt := c.rt.(inside := false, resolved := 0))
    case Adjust(e) => c.(dsp := Adjusted(c.dsp, e))
    case ActivateOk =>
      c.(active := true,
         rt := Consumer(Empty, c.cold.lastAck, 0, 0, false, c.cold.staged),
         cold := c.cold.(staged := []),
         dsp := c.dsp.(side := c.dsp.side.(pendingRestart := Encode(NotPending))),
         hist := c.hist.(at := c.hist.at.(recovered := c.hist.at.staged, staged := [])))
    case ActivateFail =>
      c.(ring := [],
         rt := c.rt.(processed := c.cold.lastAck + |c.ring|),     // what the next consumer starts from
         cold := Cold(c.cold.lastAck + |c.ring|, Rollback.NonModels(c.ring) + c.cold.staged,
                      Rollback.SlotAfter(c.cold.pendingModel, c.ring), c.cold.dropped + Freed(c)),
         hist := c.hist.(fates := c.hist.fates + Repeat(Recovered, |c.ring|),
                         at := c.hist.at.(staged := BatchAt(c) + c.hist.at.staged)))
    case Deactivate =>
      var parked := c.rt.slot.Parked?;
      c.(active := false,
         cold := c.cold.(lastAck := if parked then c.rt.processed + 1 else c.cold.lastAck,
                         dropped := c.cold.dropped + SlotItems(c.rt.slot) + RebuildItems(c.slim.slot)
                                    + ItemsOf(c.rt.recovered)),
         rt := c.rt.(slot := Empty, processed := if parked then c.rt.processed + 1 else c.rt.processed,
                     recovered := []),
         slim := c.slim.(slot := None),
         hist := c.hist.(fates := c.hist.fates + (if parked then [DroppedParked] else []),
                         at := c.hist.at.(recovered := [], lost := c.hist.at.lost + c.hist.at.recovered)))
  }

  predicate Runs(c: Chan, acts: seq<Action>)
    decreases |acts|
  {
    acts == [] || (Enabled(c, acts[0]) && Runs(Apply(c, acts[0]), acts[1..]))
  }

  function After(c: Chan, acts: seq<Action>): Chan
    requires Runs(c, acts)
    decreases |acts|
  {
    if acts == [] then c else After(Apply(c, acts[0]), acts[1..])
  }

  predicate Initial(c: Chan) {
    !c.active && c.ring == [] && c.main == Producer(None, 0, 0)
    && c.rt == Consumer(Empty, 0, 0, 0, false, []) && c.slim == Slim([], None, multiset{})
    && c.cold == Cold(0, [], None, multiset{})
    && c.hist == History([], [], [], Whereabouts([], [], [], []), [], [], multiset{}, multiset{})
  }

  // ---------- acknowledgment ----------

  function Held(s: Slot): seq<Payload> { if s.Empty? then [] else [s.p] }

  /** Commands delivered but not resolved, in order. */
  function Waiting(c: Chan): seq<Payload> { Held(c.rt.slot) + c.ring }

  /** Pushed, processed, parked and queued add up, and the published acknowledgment plus the
      running drain's count is the consumer's position. */
  predicate AckInv(c: Chan) {
    && c.main.uncounted <= 1
    && |c.hist.delivered| == c.main.nextSeq + c.main.uncounted
    && |c.hist.delivered| == |c.hist.fates| + |Waiting(c)|
    && c.hist.delivered[|c.hist.fates|..] == Waiting(c)
    && |c.hist.fates| == c.cold.lastAck + c.rt.resolved
    && c.rt.processed == |c.hist.fates| + (if c.rt.slot.InHand? then 1 else 0)
    && (c.rt.resolved > 0 || c.rt.slot.InHand? ==> c.rt.inside)
    && (c.rt.inside || !c.rt.slot.Empty? ==> c.active)
    && (c.rt.inside ==> c.rt.recovered == [])
  }

  lemma AckStep(c: Chan, a: Action)
    requires AckInv(c) && Enabled(c, a)
    ensures AckInv(Apply(c, a))
  {
    hide AckInv, Enabled, Apply;
    match a {
      case Flush => FlushKeepsAck(c);
      case Send(_) => SendKeepsAck(c, a.cmd);
      case FlushModel(_) => FlushModelKeepsAck(c, a.load);
      case PopLight => PopKeepsAck(c, a);
      case PopToHand => PopKeepsAck(c, a);
      case Supersede => ResolveKeepsAck(c, a);
      case InstallSlot => ResolveKeepsAck(c, a);
      case Park => ParkKeepsAck(c);
      case ActivateOk => ActivateKeepsAck(c);
      case ActivateFail => RollbackKeepsAck(c);
      case Deactivate => DeactivateKeepsAck(c);
      case _ => OtherKeepsAck(c, a);
    }
  }

  lemma FlushKeepsAck(c: Chan)
    requires AckInv(c) && Enabled(c, Flush)
    ensures AckInv(Apply(c, Flush))
  {
    DeliverKeepsAck(c, ParamsUpdate(c.main.pending.value));
  }

  lemma SendKeepsAck(c: Chan, cmd: Payload)
    requires AckInv(c) && Enabled(c, Send(cmd))
    ensures AckInv(Apply(c, Send(cmd)))
  {
    DeliverKeepsAck(c, cmd);
    assert Waiting(Apply(c, Send(cmd))) == Waiting(Deliver(c, cmd));
  }

  lemma FlushModelKeepsAck(c: Chan, m: LoadModel)
    requires AckInv(c) && Enabled(c, FlushModel(m))
    ensures AckInv(Apply(c, FlushModel(m)))
  {
    DeliverKeepsAck(c, Load(m));
    assert Waiting(Apply(c, FlushModel(m))) == Waiting(Deliver(c, Load(m)));
  }

  lemma PopKeepsAck(c: Chan, a: Action)
    requires AckInv(c) && Enabled(c, a) && (a.PopLight? || a.PopToHand?)
    ensures AckInv(Apply(c, a))
  {
    hide Install;
    PopKeepsOrder(c);
  }

  lemma ResolveKeepsAck(c: Chan, a: Action)
    requires AckInv(c) && Enabled(c, a) && (a.Supersede? || a.InstallSlot?)
    ensures AckInv(Apply(c, a))
  {
    hide Install, Discard, SameKey, Resolve, AckInv;
    if a.Supersede? { ResolvedKeepsAck(c, Discard(c.dsp, c.rt.slot.p), Superseded); }
    else {
      ResolvedKeepsAck(c, Install(c.dsp, c.rt.slot.p), Installed);
      BudgetKeepsAck(Resolve(c, Install(c.dsp, c.rt.slot.p), Installed), c.rt.budget - 1);
    }
  }

  lemma ResolvedKeepsAck(c: Chan, dsp: Dsp, fate: Fate)
    requires AckInv(c) && c.rt.inside && !c.rt.slot.Empty?
    ensures AckInv(Resolve(c, dsp, fate))
  {
    DropFirst(c.hist.delivered, |c.hist.fates|, c.rt.slot.p, c.ring);
    assert Waiting(Resolve(c, dsp, fate)) == c.ring;
  }

  lemma BudgetKeepsAck(c: Chan, budget: nat)
    requires AckInv(c)
    ensures AckInv(c.(rt := c.rt.(budget := budget)))
  {
    assert Waiting(c.(rt := c.rt.(budget := budget))) == Waiting(c);
  }

  lemma ParkKeepsAck(c: Chan)
    requires AckInv(c) && Enabled(c, Park)
    ensures AckInv(Apply(c, Park))
  {}

  lemma ActivateKeepsAck(c: Chan)
    requires AckInv(c) && Enabled(c, ActivateOk)
    ensures AckInv(Apply(c, ActivateOk))
  {}

  lemma RollbackKeepsAck(c: Chan)
    requires AckInv(c) && Enabled(c, ActivateFail)
    ensures AckInv(Apply(c, ActivateFail))
  {
    hide Freed, ItemsOf, Rollback.NonModels, Rollback.SlotAfter, Rollback.NonModelPositions;
    assert Waiting(c) == c.ring && Waiting(Apply(c, ActivateFail)) == [];
  }

  lemma DeactivateKeepsAck(c: Chan)
    requires AckInv(c) && Enabled(c, Deactivate)
    ensures AckInv(Apply(c, Deactivate))
  {
    hide ItemsOf, SlotItems, RebuildItems;
    assert Waiting(Apply(c, Deactivate)) == c.ring;
    if c.rt.slot.Parked? {
      DropFirst(c.hist.delivered, |c.hist.fates|, c.rt.slot.p, c.ring);
    } else {
      assert Waiting(c) == c.ring;
    }
  }

  lemma DropFirst(all: seq<Payload>, n: nat, p: Payload, rest: seq<Payload>)
    requires n <= |all| && all[n..] == [p] + rest
    ensures n < |all| && all[n + 1..] == rest
  {
    assert all[n + 1..] == all[n..][1..];
  }

  lemma OtherKeepsAck(c: Chan, a: Action)
    requires AckInv(c) && Enabled(c, a)
    requires !a.Flush? && !a.Send? && !a.FlushModel?
    requires !a.PopLight? && !a.PopToHand? && !a.Supersede? && !a.InstallSlot? && !a.Park?
    requires !a.ActivateOk? && !a.ActivateFail? && !a.Deactivate?
    ensures AckInv(Apply(c, a))
  {
    hide InstallAll, FinishCallback, Adjusted;
  }

  lemma DeliverKeepsAck(c: Chan, p: Payload)
    requires AckInv(c) && c.main.uncounted == 0
    ensures AckInv(Deliver(c, p))
  {
    assert Waiting(Deliver(c, p)) == Waiting(c) + [p];
  }

  lemma PopKeepsOrder(c: Chan)
    requires c.ring != [] && c.rt.slot.Empty?
    ensures Waiting(c) == [c.ring[0]] + c.ring[1..] == Waiting(PopHead(c))
  {}

  lemma ResolvedWaiting(c: Chan, a: Action)
    requires Enabled(c, a) && (a.PopLight? || a.Supersede? || a.InstallSlot?)
    ensures Waiting(c) != [] && Waiting(Apply(c, a)) == Waiting(c)[1..]
  {
    hide Install, Discard, SameKey;
  }

  lemma {:induction false} AckRun(c: Chan, acts: seq<Action>)
    requires AckInv(c) && Runs(c, acts)
    ensures AckInv(After(c, acts))
    decreases |acts|
  {
    if acts != [] {
      AckStep(c, acts[0]);
      AckRun(Apply(c, acts[0]), acts[1..]);
    }
  }

  /** In every reachable state: what was pushed is processed, parked or queued; a drain that
      has no candidate in hand is at the published acknowledgment plus its own count; and an
      acknowledged sequence number belongs to a command whose fate is settled, while every
      waiting command has a larger one. */
  lemma AckIsExact(c0: Chan, acts: seq<Action>)
    requires Initial(c0) && Runs(c0, acts)
    ensures var c := After(c0, acts);
            var pushed := c.main.nextSeq + c.main.uncounted;
            pushed == c.rt.processed + (if c.rt.slot.Parked? then 1 else 0) + |c.ring|
            && (!c.rt.slot.InHand? ==> c.rt.processed == c.cold.lastAck + c.rt.resolved)
            && (!c.rt.inside ==> c.rt.processed == c.cold.lastAck)
            && c.cold.lastAck <= |c.hist.fates| <= pushed
            && c.cold.lastAck <= c.main.nextSeq + 1
            && forall k :: 0 <= k < |Waiting(c)| ==>
                 |c.hist.fates| + k < |c.hist.delivered| && c.hist.delivered[|c.hist.fates| + k] == Waiting(c)[k]
  {
    hide AckInv, Waiting, Runs, After, Initial;
    AckAtStart(c0);
    AckRun(c0, acts);
    AckFacts(After(c0, acts));
  }

  lemma AckAtStart(c0: Chan)
    requires Initial(c0)
    ensures AckInv(c0)
  {}

  lemma AckFacts(c: Chan)
    requires AckInv(c)
    ensures var pushed := c.main.nextSeq + c.main.uncounted;
            pushed == c.rt.processed + (if c.rt.slot.Parked? then 1 else 0) + |c.ring|
            && (!c.rt.slot.InHand? ==> c.rt.processed == c.cold.lastAck + c.rt.resolved)
            && (!c.rt.inside ==> c.rt.processed == c.cold.lastAck)
            && c.cold.lastAck <= |c.hist.fates| <= pushed
            && c.cold.lastAck <= c.main.nextSeq + 1
    ensures forall k :: 0 <= k < |Waiting(c)| ==>
              |c.hist.fates| + k < |c.hist.delivered| && c.hist.delivered[|c.hist.fates| + k] == Waiting(c)[k]
  {
    var n := |c.hist.fates|;
    forall k | 0 <= k < |Waiting(c)| ensures n + k < |c.hist.delivered| && c.hist.delivered[n + k] == Waiting(c)[k] {
      assert c.hist.delivered[n..][k] == Waiting(c)[k];
    }
  }

  /** The acknowledgment never goes back, and a settled fate is never revised. */
  lemma AckIsMonotone(c: Chan, a: Action)
    requires AckInv(c) && Enabled(c, a)
    ensures Apply(c, a).cold.lastAck >= c.cold.lastAck
    ensures c.hist.fates <= Apply(c, a).hist.fates && c.hist.delivered <= Apply(c, a).hist.delivered
    ensures a.EndCallback? ==> Apply(c, a).cold.lastAck == c.rt.processed
  {
    hide Install, InstallAll, Discard, FinishCallback, Adjusted, Freed;
    match a {
      case Deactivate => case EndCallback => case ActivateFail => case ActivateOk => case _ =>
    }
  }

  // ---------- fates ----------

  /** A superseded command was overtaken by its immediate successor of the same kind. */
  predicate FatesInv(c: Chan) {
    |c.hist.fates| <= |c.hist.delivered|
    && forall i :: 0 <= i < |c.hist.fates| && c.hist.fates[i] == Superseded ==>
         i + 1 < |c.hist.delivered| && SameKey(c.hist.delivered[i], c.hist.delivered[i + 1])
  }

  lemma FatesStep(c: Chan, a: Action)
    requires AckInv(c) && FatesInv(c) && Enabled(c, a)
    ensures FatesInv(Apply(c, a))
  {
    hide Install, InstallAll, Discard, FinishCallback, Adjusted, Freed;
    AckStep(c, a);
    AckIsMonotone(c, a);
    var d := Apply(c, a);
    var n := |c.hist.fates|;
    if a.Supersede? {
      assert Waiting(c)[0] == c.rt.slot.p && Waiting(c)[1] == c.ring[0];
      assert c.hist.delivered[n..][0] == c.rt.slot.p && c.hist.delivered[n..][1] == c.ring[0];
    }
    OnlySupersedeSupersedes(c, a);
    forall i | 0 <= i < |d.hist.fates| && d.hist.fates[i] == Superseded
      ensures i + 1 < |d.hist.delivered| && SameKey(d.hist.delivered[i], d.hist.delivered[i + 1])
    {
      if i < n { assert c.hist.fates[i] == Superseded; }
    }
  }

  lemma OnlySupersedeSupersedes(c: Chan, a: Action)
    requires Enabled(c, a)
    ensures var fates := Apply(c, a).hist.fates;
            forall i :: |c.hist.fates| <= i < |fates| && fates[i] == Superseded ==>
              a.Supersede? && i == |c.hist.fates|
  {
    hide Install, InstallAll, FinishCallback, Discard, Adjusted, Freed;
    match a {
      case ActivateFail => case Deactivate => case PopLight => case InstallSlot => case Supersede => case _ =>
    }
  }

  // ---------- runs ----------

  /** One action more at the end of a run. */
  lemma {:induction false} Extend(c: Chan, acts: seq<Action>, a: Action)
    requires Runs(c, acts) && Enabled(After(c, acts), a)
    ensures Runs(c, acts + [a]) && After(c, acts + [a]) == Apply(After(c, acts), a)
    decreases |acts|
  {
    hide Enabled, Apply;
    if acts == [] {
      assert [] + [a] == [a] && [a][1..] == [];
      assert After(Apply(c, a), []) == Apply(c, a);
    } else {
      Extend(Apply(c, acts[0]), acts[1..], a);
      assert (acts + [a])[0] == acts[0] && (acts + [a])[1..] == acts[1..] + [a];
    }
  }

  lemma TwoSteps(c: Chan, a: Action, b: Action)
    requires Enabled(c, a) && Enabled(Apply(c, a), b)
    ensures Runs(c, [a, b]) && After(c, [a, b]) == Apply(Apply(c, a), b)
  {
    hide Enabled, Apply;
    Extend(c, [], a);
    assert [] + [a] == [a] && [a] + [b] == [a, b];
    Extend(c, [a], b);
  }

  lemma {:induction false} RunsConcat(c: Chan, a: seq<Action>, b: seq<Action>)
    requires Runs(c, a) && Runs(After(c, a), b)
    ensures Runs(c, a + b) && After(c, a + b) == After(After(c, a), b)
    decreases |a|
  {
    hide Enabled, Apply;
    if a == [] {
      assert a + b == b;
    } else {
      assert (a + b)[0] == a[0] && (a + b)[1..] == a[1..] + b;
      RunsConcat(Apply(c, a[0]), a[1..], b);
    }
  }

  /** Over a run, too, the acknowledgment only grows and nothing settled is revised. */
  lemma {:induction false} RunIsMonotone(c: Chan, acts: seq<Action>)
    requires AckInv(c) && Runs(c, acts)
    ensures AckInv(After(c, acts)) && After(c, acts).cold.lastAck >= c.cold.lastAck
    ensures c.hist.fates <= After(c, acts).hist.fates && c.hist.delivered <= After(c, acts).hist.delivered
    decreases |acts|
  {
    hide AckInv, Enabled, Apply;
    if acts != [] {
      AckStep(c, acts[0]);
      AckIsMonotone(c, acts[0]);
      RunIsMonotone(Apply(c, acts[0]), acts[1..]);
    }
  }
}
