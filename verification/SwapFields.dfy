/** What the commands and events do, read off the fields of the state before and after, and what
    they do to every single heap resource.  Nothing here names the functions it is about on the
    right-hand side: each lemma says what a reader of the state sees. */
module SwapFields {
  import opened Options
  import opened Payloads
  import opened SwapDomain
  import opened Channel
  import Rollback

  // ---------- resources ----------

  function One(b: bool): nat { if b then 1 else 0 }

  /** How often a load carries a resource. */
  function LoadBrings(m: LoadModel, x: GcItem): nat {
    match x
    case ModelItem(model) => One(m.modelL == Some(model)) + One(m.modelR == Some(model))
    case ResamplerItem(r) => One(m.resampler == r)
    case StreamItem(s) => One(m.stream == s)
    case _ => 0
  }

  /** How often a command carries it. */
  function Brings(p: Payload, x: GcItem): nat {
    match p
    case ParamsUpdate(_) => 0
    case Load(m) => LoadBrings(m, x)
    case LoadCabIr(pair) => One(x.IrItem? && pair == Some(x.ir))
    case SetOversample(l, r) => One(x == EngineItem(l)) + One(x == EngineItem(r))
    case Restore(t) =>
      (if t.model.Some? then LoadBrings(t.model.value, x) else 0) + One(x.IrItem? && t.ir == Some(Some(x.ir)))
  }

  function BringsAll(ps: seq<Payload>, x: GcItem): nat {
    if ps == [] then 0 else Brings(ps[0], x) + BringsAll(ps[1..], x)
  }

  /** How often it is installed. */
  function Installs(d: Dsp, x: GcItem): nat {
    match x
    case ModelItem(model) => One(d.chain.modelL == Some(model)) + One(d.chain.modelR == Some(model))
    case ResamplerItem(r) => One(d.chain.resampler == r)
    case StreamItem(s) => One(d.chain.stream == s)
    case EngineItem(e) => One(d.os.osL == e) + One(d.os.osR == e)
    case IrItem(ir) => One(d.ir == Some(ir))
  }

  function WaitingHolds(m: Option<Rollback.PendingModel>, x: GcItem): nat {
    if m.Some? && x.ModelItem? then One(m.value.modelL == Some(x.model)) + One(m.value.modelR == Some(x.model)) else 0
  }

  function RebuildsHold(rs: seq<Rebuild>, x: GcItem): nat {
    if rs == [] then 0 else One(x == ModelItem(rs[0].model)) + RebuildsHold(rs[1..], x)
  }

  lemma SingleCount(y: GcItem, z: GcItem, x: GcItem)
    ensures multiset{y}[x] == One(y == x) && multiset{y, z}[x] == One(y == x) + One(z == x)
  {}

  lemma ModelOrNothing(m: Option<Model>, x: GcItem)
    ensures ModelItems(m)[x] == One(x.ModelItem? && m == Some(x.model))
  {
    if m.Some? { SingleCount(ModelItem(m.value), x, x); }
  }

  lemma IrOrNothing(ir: Option<Ir>, x: GcItem)
    ensures IrItems(ir)[x] == One(x.IrItem? && ir == Some(x.ir))
  {
    if ir.Some? { SingleCount(IrItem(ir.value), x, x); }
  }

  lemma LoadItemsAreBrought(m: LoadModel, x: GcItem)
    ensures LoadItems(m)[x] == LoadBrings(m, x)
  {
    ModelOrNothing(m.modelL, x);
    ModelOrNothing(m.modelR, x);
    SingleCount(ResamplerItem(m.resampler), StreamItem(m.stream), x);
    hide ModelItems, One;
    match x case ModelItem(_) => case ResamplerItem(_) => case StreamItem(_) => case _ =>
  }

  /** The resources counted for a command are those it carries. */
  lemma ItemsAreBrought(p: Payload, x: GcItem)
    ensures Items(p)[x] == Brings(p, x)
  {
    hide LoadItems, IrItems, LoadBrings, One;
    NothingIsOne();
    match p {
      case ParamsUpdate(_) =>
      case Load(m) => LoadItemsAreBrought(m, x);
      case LoadCabIr(pair) => IrOrNothing(pair, x);
      case SetOversample(l, r) => SingleCount(EngineItem(l), EngineItem(r), x);
      case Restore(t) => RestoreItemsAreBrought(t, x);
    }
  }

  lemma NothingIsOne()
    ensures One(false) == 0
  {}

  lemma RestoreItemsAreBrought(t: RestoreTxn, x: GcItem)
    ensures Items(Restore(t))[x] == Brings(Restore(t), x)
  {
    hide LoadItems, IrItems, LoadBrings;
    if t.model.Some? { LoadItemsAreBrought(t.model.value, x); }
    if t.ir.Some? { IrOrNothing(t.ir.value, x); }
  }

  lemma {:induction false} ItemsOfAreBrought(ps: seq<Payload>, x: GcItem)
    ensures ItemsOf(ps)[x] == BringsAll(ps, x)
  {
    hide Items, Brings;
    if ps != [] {
      ItemsAreBrought(ps[0], x);
      ItemsOfAreBrought(ps[1..], x);
    }
  }

  lemma ChainCount(ch: Chain, x: GcItem)
    ensures ChainItems(ch)[x]
            == match x
               case ModelItem(model) => One(ch.modelL == Some(model)) + One(ch.modelR == Some(model))
               case ResamplerItem(r) => One(ch.resampler == r)
               case StreamItem(s) => One(ch.stream == s)
               case _ => 0
  {
    ModelOrNothing(ch.modelL, x);
    ModelOrNothing(ch.modelR, x);
    SingleCount(ResamplerItem(ch.resampler), StreamItem(ch.stream), x);
    hide ModelItems;
  }

  /** The resources counted for the processor are those installed and those retired. */
  lemma OwnedAreInstalled(d: Dsp, x: GcItem)
    ensures Owned(d)[x] == Installs(d, x) + d.retired[x]
  {
    hide ChainItems, IrItems;
    ChainCount(d.chain, x);
    IrOrNothing(d.ir, x);
    SingleCount(EngineItem(d.os.osL), EngineItem(d.os.osR), x);
    assert OsItems(d.os)[x] == One(EngineItem(d.os.osL) == x) + One(EngineItem(d.os.osR) == x);
    hide OsItems;
  }

  lemma PendingAreHeld(m: Option<Rollback.PendingModel>, x: GcItem)
    ensures PendingItems(m)[x] == WaitingHolds(m, x)
  {
    hide ModelItems;
    if m.Some? {
      ModelOrNothing(m.value.modelL, x);
      ModelOrNothing(m.value.modelR, x);
    }
  }

  lemma RebuildIsHeld(r: Option<Rebuild>, x: GcItem)
    ensures RebuildItems(r)[x] == One(r.Some? && x == ModelItem(r.value.model))
  {
    if r.Some? { SingleCount(ModelItem(r.value.model), x, x); }
  }

  lemma {:induction false} RebuildsAreHeld(rs: seq<Rebuild>, x: GcItem)
    ensures RebuildsItems(rs)[x] == RebuildsHold(rs, x)
  {
    if rs != [] {
      RebuildsAreHeld(rs[1..], x);
      SingleCount(ModelItem(rs[0].model), x, x);
    }
  }

  /** Every install: a resource that was installed or carried is afterwards installed or has been
      handed to the collector, as often as before, and nothing leaves the collector. */
  lemma ReplacedIsRetired(d: Dsp, p: Payload, x: GcItem)
    ensures var e := Install(d, p);
            Installs(e, x) + e.retired[x] == Installs(d, x) + d.retired[x] + Brings(p, x)
            && e.retired[x] >= d.retired[x]
            && (Installs(e, x) < Installs(d, x) ==> e.retired[x] > d.retired[x])
  {
    hide Install, Items, Owned, Brings, Installs;
    InstallConserves(d, p);
    OwnedAreInstalled(d, x);
    OwnedAreInstalled(Install(d, p), x);
    ItemsAreBrought(p, x);
    NothingComesBack(d, p, x);
  }

  lemma NothingComesBack(d: Dsp, p: Payload, x: GcItem)
    ensures Install(d, p).retired[x] >= d.retired[x]
  {
    match p {
      case Restore(t) =>
        assert MaybeModel(d, t.model).retired[x] >= d.retired[x];
        IrTakesNothingBack(MaybeModel(d, t.model), t.ir, x);
      case LoadCabIr(pair) => IrTakesNothingBack(d, Some(pair), x);
      case _ =>
    }
  }

  lemma IrTakesNothingBack(d: Dsp, ir: Option<Option<Ir>>, x: GcItem)
    ensures MaybeIr(d, ir).retired[x] >= d.retired[x]
  {}

  /** A discarded command leaves everything it carries with the collector, and nothing else changes. */
  lemma DiscardedIsRetired(d: Dsp, p: Payload, x: GcItem)
    ensures Discard(d, p).retired[x] == d.retired[x] + Brings(p, x)
    ensures Discard(d, p).(retired := d.retired) == d
  {
    hide Items;
    ItemsAreBrought(p, x);
  }

  /** A rebuild takes the place of the left model, which is retired; a refused one is retired
      itself. */
  lemma RebuildTakesItsPlace(d: Dsp, r: Rebuild, x: GcItem)
    ensures var e := InstallRebuild(d, r);
            e.chain == d.chain.(modelL := Some(r.model)) && e.(chain := d.chain, retired := d.retired) == d
            && e.retired[x] == d.retired[x] + One(x.ModelItem? && d.chain.modelL == Some(x.model))
    ensures var e := RetireRebuild(d, r);
            e.(retired := d.retired) == d && e.retired[x] == d.retired[x] + One(x == ModelItem(r.model))
  {}

  // ---------- models, impulse responses, engines ----------

  /** The chain runs the load `m`, from a fresh prewarm state. */
  predicate IsRunning(ch: Chain, m: LoadModel) {
    ch.modelL == m.modelL && ch.modelR == m.modelR && ch.generation == m.generation
    && ch.resampler == m.resampler && ch.stream == m.stream
    && ch.inputMult == m.inputMult && ch.outputMult == m.outputMult
    && !ch.prewarmPending && ch.zeroBudgetCount == 0 && ch.prewarmCost == m.costNs
  }

  lemma LoadRuns(d: Dsp, m: LoadModel)
    ensures var e := Install(d, Load(m));
            IsRunning(e.chain, m) && (e.cfg, e.os, e.ir, e.control) == (d.cfg, d.os, d.ir, d.control)
            && e.appliedRestore == d.appliedRestore
            && e.side.(adaptive := d.side.adaptive) == d.side
            && e.side.adaptive.mode == d.side.adaptive.mode && e.side.adaptive.slim == d.side.adaptive.slim
            && e.side.adaptive.fullChannels
               == if m.modelL.Some? && m.modelL.value.wavenet.Some? then m.modelL.value.wavenet
                  else d.side.adaptive.fullChannels
  {}

  /** An impulse response built for another rate than the host's is refused: flagged, handed to the
      collector, and nothing else changes.  Every other one, or none, takes the place of the old. */
  lemma StaleIsRefused(d: Dsp, pair: Option<Ir>, x: Ir)
    ensures var e := Install(d, LoadCabIr(pair));
            if pair.Some? && d.cfg.hostRate != 0 && pair.value.sampleRate != d.cfg.hostRate then
              e.ir == d.ir && e.latency == d.latency && e.side == d.side.(contractViolation := true)
              && e.retired[IrItem(x)] == d.retired[IrItem(x)] + One(pair == Some(x))
            else
              e.ir == pair && e.side.contractViolation == d.side.contractViolation
              && e.retired[IrItem(x)] == d.retired[IrItem(x)] + One(d.ir == Some(x))
    ensures var e := Install(d, LoadCabIr(pair));
            (e.cfg, e.chain, e.os, e.control) == (d.cfg, d.chain, d.os, d.control)
            && e.appliedRestore == d.appliedRestore
  {}

  lemma EnginesTakeTheirPlace(d: Dsp, l: Engine, r: Engine)
    ensures var e := Install(d, SetOversample(l, r));
            e.os.osL == l && e.os.osR == r && e.os.applied == l.factor
            && (e.cfg, e.chain, e.ir, e.control, e.side) == (d.cfg, d.chain, d.ir, d.control, d.side)
            && e.appliedRestore == d.appliedRestore
  {}

  // ---------- parameters ----------

  /** `y` is `x` brought into its limits. */
  predicate Limited(y: real, x: real, lo: real, hi: real) {
    lo <= y <= hi && (lo <= x <= hi ==> y == x) && (x < lo ==> y == lo) && (x > hi ==> y == hi)
  }

  /** The control state is what the snapshot `p` asks for: each value within its limits, the others
      as they are, and each smoother aimed at its own gain plus the host's modulation of it. */
  predicate Reflects(k: Control, cfg: Config, p: Params) {
    Limited(k.params.inputGain, p.inputGain, -20.0, 20.0)
    && Limited(k.params.outputGain, p.outputGain, -20.0, 20.0)
    && Limited(k.params.gate, p.gate, -90.0, -40.0)
    && k.params.bypass == p.bypass && k.params.adaptive == p.adaptive && k.params.slim == p.slim
    && k.params.oversample == p.oversample && k.params.activation == p.activation
    && k.targetIn == k.params.inputGain + cfg.modInput
    && k.targetOut == k.params.outputGain + cfg.modOutput
  }

  /** There is only one such state. */
  lemma ReflectsOne(k: Control, l: Control, cfg: Config, p: Params)
    requires Reflects(k, cfg, p) && Reflects(l, cfg, p)
    ensures k == l
  {}

  lemma ControlReflects(cfg: Config, p: Params)
    ensures Reflects(ControlOf(cfg, p), cfg, p)
  {}

  /** A snapshot sets the control state, raises the gate flag exactly when the gate changed, passes a
      changed mode, slim override and precision on, and puts a changed factor through the policy:
      a pending restart while active, a rebuild request while not. */
  lemma SnapshotIsApplied(d: Dsp, p: Params)
    ensures var e := Install(d, ParamsUpdate(p));
            var was, now := d.control.params, e.control.params;
            Reflects(e.control, d.cfg, p)
            && (e.side.gateDirty <==> d.side.gateDirty || now.gate != was.gate)
            && e.side.adaptive.mode == (if now.adaptive != was.adaptive then now.adaptive else d.side.adaptive.mode)
            && e.side.adaptive.slim == (if now.slim != was.slim then now.slim else d.side.adaptive.slim)
            && e.side.precision == (if now.activation != was.activation then now.activation else d.side.precision)
    ensures var e := Install(d, ParamsUpdate(p));
            Policy(d, e)
            && (e.cfg, e.chain, e.os, e.ir, e.latency) == (d.cfg, d.chain, d.os, d.ir, d.latency)
            && e.retired == d.retired && e.appliedRestore == d.appliedRestore
            && e.side.adaptive.fullChannels == d.side.adaptive.fullChannels
            && e.side.oversampleCell == d.side.oversampleCell && e.side.adaptiveCell == d.side.adaptiveCell
            && e.side.currentLatency == d.side.currentLatency && e.side.lastTail == d.side.lastTail
            && e.side.tailCalls == d.side.tailCalls && e.side.offline == d.side.offline
            && e.side.contractViolation == d.side.contractViolation
  {
    hide Sanitized, OversamplePolicy;
    ControlReflects(d.cfg, p);
    SanitizedIsControl(d.cfg, p);
    var s := d.side.(adaptive := Followed(d.side.adaptive, d.control.params, Sanitized(p)));
    PolicyIsFollowed(s, d.cfg.bufferSize, Sanitized(p).oversample);
  }

  lemma SanitizedIsControl(cfg: Config, p: Params)
    ensures ControlOf(cfg, p).params == Sanitized(p)
  {}

  /** What the oversampling policy leaves, for a factor that changed. */
  predicate Requested(s: Side, t: Side, bufferSize: nat, f: OversampleFactor) {
    if bufferSize > 0 then t.pendingRestart == FactorCode(f) && t.rebuildRequest == s.rebuildRequest
    else t.rebuildRequest == Some(f) && t.pendingRestart == s.pendingRestart
  }

  function FactorCode(f: OversampleFactor): nat { match f case Off => 1 case X2 => 2 case X4 => 3 }

  /** The request is put through if and only if the factor changed. */
  predicate Policy(d: Dsp, e: Dsp) {
    if e.control.params.oversample != d.control.params.oversample
    then Requested(d.side, e.side, d.cfg.bufferSize, e.control.params.oversample)
    else e.side.pendingRestart == d.side.pendingRestart && e.side.rebuildRequest == d.side.rebuildRequest
  }

  lemma PolicyIsFollowed(s: Side, bufferSize: nat, f: OversampleFactor)
    ensures Requested(s, OversamplePolicy(s, bufferSize, f), bufferSize, f)
    ensures OversamplePolicy(s, bufferSize, f).(pendingRestart := s.pendingRestart, rebuildRequest := s.rebuildRequest)
            == s
  {}

  // ---------- restores ----------

  /** A restore does all three in one: its model, its impulse response if accepted, its parameters,
      and then its generation. */
  lemma RestoreIsApplied(d: Dsp, t: RestoreTxn)
    ensures var e := Install(d, Restore(t));
            (if t.model.Some? then IsRunning(e.chain, t.model.value) else e.chain == d.chain)
            && e.ir == (if t.ir.Some?
                           && !(t.ir.value.Some? && d.cfg.hostRate != 0 && t.ir.value.value.sampleRate != d.cfg.hostRate)
                        then t.ir.value else d.ir)
            && Reflects(e.control, d.cfg, t.params) && e.appliedRestore == t.generation && e.os == d.os && e.cfg == d.cfg
  {
    hide MaybeModel, MaybeIr, ControlOf, ParamsSide, Reflects;
    ModelPart(d, t.model);
    IrPart(MaybeModel(d, t.model), t.ir);
    ControlReflects(d.cfg, t.params);
  }

  lemma ModelPart(d: Dsp, m: Option<LoadModel>)
    ensures var e := MaybeModel(d, m);
            (if m.Some? then IsRunning(e.chain, m.value) else e.chain == d.chain)
            && (e.cfg, e.os, e.ir, e.control) == (d.cfg, d.os, d.ir, d.control)
  {}

  lemma IrPart(d: Dsp, ir: Option<Option<Ir>>)
    ensures var e := MaybeIr(d, ir);
            e.ir == (if ir.Some?
                        && !(ir.value.Some? && d.cfg.hostRate != 0 && ir.value.value.sampleRate != d.cfg.hostRate)
                     then ir.value else d.ir)
            && (e.cfg, e.chain, e.os, e.control) == (d.cfg, d.chain, d.os, d.control)
  {}

  // ---------- events ----------

  /** A changed factor from the host is adopted, stored for the GUI and put through the policy; an
      unchanged one changes nothing. */
  lemma HostFactorIsAdopted(d: Dsp, f: OversampleFactor)
    ensures var e := Adjusted(d, HostOversample(f));
            e.control.params == d.control.params.(oversample := f) && Policy(d, e)
            && e.side.oversampleCell == (if f != d.control.params.oversample then f else d.side.oversampleCell)
            && e.side.(oversampleCell := d.side.oversampleCell, pendingRestart := d.side.pendingRestart,
                       rebuildRequest := d.side.rebuildRequest) == d.side
            && e.(control := d.control, side := d.side) == d
            && e.control.targetIn == d.control.targetIn && e.control.targetOut == d.control.targetOut
  {
    hide OversamplePolicy;
    PolicyIsFollowed(d.side, d.cfg.bufferSize, f);
  }

  /** A read of the cells right after a host event undoes nothing: the host's changed factor stays,
      and where the adaptive cell was in step the read changes nothing at all. */
  lemma SyncAfterHostFactor(d: Dsp, f: OversampleFactor)
    ensures var h := Adjusted(d, HostOversample(f));
            var e := Adjusted(h, GuiSync);
            (e.control.params.oversample == f <==> f != d.control.params.oversample || d.side.oversampleCell == f)
            && (f != d.control.params.oversample && d.side.adaptiveCell == d.control.params.adaptive == d.side.adaptive.mode
                ==> e == h)
  {
    hide OversamplePolicy;
    PolicyIsFollowed(d.side, d.cfg.bufferSize, f);
    var x := AdaptiveSynced(Adjusted(d, HostOversample(f)));
    PolicyIsFollowed(x.side, x.cfg.bufferSize, x.side.oversampleCell);
  }

  lemma SyncAfterHostMode(d: Dsp, m: AdaptiveMode)
    ensures var h := Adjusted(d, HostAdaptive(m));
            h.control.params == d.control.params.(adaptive := m)
            && h.side.adaptive.mode == h.side.adaptiveCell == m
            && h.side.(adaptive := d.side.adaptive, adaptiveCell := d.side.adaptiveCell) == d.side
            && h.side.adaptive.slim == d.side.adaptive.slim
    ensures var e := Adjusted(Adjusted(d, HostAdaptive(m)), GuiSync);
            e.control.params.adaptive == e.side.adaptive.mode == e.side.adaptiveCell == m
  {
    hide OversamplePolicy;
    var x := AdaptiveSynced(Adjusted(d, HostAdaptive(m)));
    PolicyIsFollowed(x.side, x.cfg.bufferSize, x.side.oversampleCell);
  }

  /** What the GUI stored is what the next read of the cells adopts. */
  lemma SyncAdoptsCells(d: Dsp, f: OversampleFactor, m: AdaptiveMode)
    ensures var e := Adjusted(Adjusted(Adjusted(d, GuiOversample(f)), GuiAdaptive(m)), GuiSync);
            e.control.params == d.control.params.(oversample := f, adaptive := m) && e.side.adaptive.mode == m
            && Policy(d, e)
    ensures Adjusted(d, GuiOversample(f)).control == d.control && Adjusted(d, GuiAdaptive(m)).control == d.control
  {
    hide OversamplePolicy;
    var x := Adjusted(Adjusted(d, GuiOversample(f)), GuiAdaptive(m));
    PolicyIsFollowed(AdaptiveSynced(x).side, x.cfg.bufferSize, f);
  }

  /** Every callback that sees offline rendering leaves the controller off; the first one sets the
      standard activation functions, a later one leaves them. */
  lemma OfflineIsFullQuality(d: Dsp)
    ensures var e := Adjusted(d, RenderSeen(true));
            e.side.offline && e.side.adaptive.mode == ComputeOff && e.side.adaptive.slim == d.side.adaptive.slim
            && (!d.side.offline ==> e.side.precision == e.control.params.activation == Standard)
            && (d.side.offline ==> e.side.precision == d.side.precision && e.control == d.control)
            && e.control.params.(activation := d.control.params.activation) == d.control.params
  {}

  /** Coming back restores the activation functions of before, whatever mode the cell holds. */
  lemma OfflineRoundTrip(d: Dsp)
    requires !d.side.offline && d.side.precision == d.control.params.activation
    ensures var e := Adjusted(Adjusted(d, RenderSeen(true)), RenderSeen(false));
            e.control == d.control && e.side.precision == d.side.precision && !e.side.offline
            && e.side.adaptive.mode == d.side.adaptiveCell
    ensures Adjusted(d, RenderSeen(false)) == d
  {}

  /** The raw form of a pending restart, as other code reads it. */
  lemma RawCodes(f: OversampleFactor)
    ensures Encode(NotPending) == 0 && Encode(Pending(f)) == FactorCode(f) && Decode(FactorCode(f)) == Pending(f)
    ensures Decode(0) == NotPending
  {}

  // ---------- classification ----------

  /** Latest wins among models, among impulse responses and among engines, and never between kinds,
      for snapshots or for restores. */
  lemma KeysAreKinds(p: Payload, q: Payload)
    ensures SameKey(p, q) <==> (p.Load? && q.Load?) || (p.LoadCabIr? && q.LoadCabIr?) || (p.SetOversample? && q.SetOversample?)
    ensures IsStructural(p) <==> p.Load? || p.LoadCabIr? || p.SetOversample? || p.Restore?
  {}
}
