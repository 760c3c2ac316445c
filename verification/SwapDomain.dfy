/** What each command does to the DSP state.  These functions specify the cold
    handlers of the command swap; `Processor` proves the in-place code against
    them, and `Channel` runs them under every drain schedule. */
module SwapDomain {
  import opened Options
  import opened Payloads

  const U32_MAX: nat := 0xFFFF_FFFF
  const U32_COUNT: nat := 0x1_0000_0000
  const GAIN_MIN_DB: real := -20.0
  const GAIN_MAX_DB: real := 20.0

  /** Fixed while the processor is active. */
  datatype Config = Config(
    hostRate: nat,          // 0 before the first activation
    bufferSize: nat,        // 0 before the first activation
    dryCapacity: nat,       // longest delay the dry line can hold
    modInput: real,         // host modulation of the two gains, in dB
    modOutput: real)

  /** The model chain and what is swapped together with it. */
  datatype Chain = Chain(
    modelL: Option<Model>,
    modelR: Option<Model>,
    generation: nat,
    resampler: Resampler,
    stream: Stream,
    inputMult: real,
    outputMult: real,
    prewarmPending: bool,
    zeroBudgetCount: nat,
    prewarmCost: Option<real>)

  datatype Oversampling = Oversampling(osL: Engine, osR: Engine, applied: OversampleFactor)

  /** Parameters and the smoother targets, kept in dB before the gain table. */
  datatype Control = Control(params: Params, targetIn: real, targetOut: real)

  /** The cached latency, the dry delay, and the published contributions. */
  datatype Latency = Latency(cached: nat, dryDelay: nat, stream: nat, ir: nat, irTail: nat)

  /** What the adaptive controller is told. */
  datatype Adaptive = Adaptive(mode: AdaptiveMode, slim: SlimOverride, fullChannels: Option<(nat, bool)>)

  /** State outside the meaning of a command sequence: it depends on when callbacks end. */
  datatype Side = Side(
    currentLatency: nat,    // rt_to_ui.current_latency, published at the end of a callback
    lastTail: nat,          // last_reported_tail_samples
    tailCalls: seq<nat>,    // the tail at each HostTail::changed
    pendingRestart: nat,    // raw PendingRestart
    rebuildRequest: Option<OversampleFactor>,
    gateDirty: bool,
    contractViolation: bool,
    adaptive: Adaptive,
    precision: Activation,          // the activation functions of the audio thread
    oversampleCell: OversampleFactor,   // ui_to_rt.param_oversample
    adaptiveCell: AdaptiveMode,         // ui_to_rt.param_adaptive_compute
    offline: bool,                  // last_render_mode
    realtimeActivation: Activation) // kept while rendering offline

  datatype Dsp = Dsp(
    cfg: Config,
    chain: Chain,
    os: Oversampling,
    ir: Option<Ir>,
    control: Control,
    latency: Latency,
    appliedRestore: nat,    // last_applied_generation
    retired: multiset<GcItem>,
    side: Side)

  // ---------- latency ----------

  function SatAdd(a: nat, b: nat): nat {
    if a + b > U32_MAX then U32_MAX else a + b
  }

  /** A cast to 32 bits, or a 32-bit sum in the release build. */
  function Wrap(n: nat): nat { n % U32_COUNT }

  function IrLatencyOf(ir: Option<Ir>): nat {
    if ir.Some? then Wrap(ir.value.partitionSize) else 0
  }

  function IrTailOf(ir: Option<Ir>): nat {
    if ir.Some? then Wrap(ir.value.partitions * ir.value.blockLatency) else 0
  }

  /** Latency of the installed resources. */
  function EffectiveLatency(stream: Stream, osL: Engine, ir: Option<Ir>): (l: nat)
    ensures l == (stream.latency + osL.latency + (if ir.Some? then ir.value.partitionSize else 0)) % U32_COUNT
  {
    Wrap(stream.latency + osL.latency + IrLatencyOf(ir))
  }

  function DryDelayFor(latency: nat, capacity: nat): nat {
    if latency <= capacity then latency else capacity
  }

  function Recompute(d: Dsp): Dsp {
    var l := EffectiveLatency(d.chain.stream, d.os.osL, d.ir);
    d.(latency := d.latency.(cached := l, dryDelay := DryDelayFor(l, d.cfg.dryCapacity)))
  }

  function TailOf(d: Dsp): nat { SatAdd(d.latency.cached, d.latency.irTail) }

  /** What the tail extension answers when the host asks. */
  function TailReader(d: Dsp): nat { SatAdd(d.side.currentLatency, d.latency.irTail) }

  function Reported(side: Side, tail: nat): Side {
    if tail == side.lastTail then side
    else side.(lastTail := tail, tailCalls := side.tailCalls + [tail])
  }

  function CheckTail(d: Dsp): Dsp {
    d.(side := Reported(d.side, TailOf(d)))
  }

  /** The end of `process_events`: publish the latency, then report the tail. */
  function FinishCallback(d: Dsp): Dsp {
    CheckTail(d.(side := d.side.(currentLatency := d.latency.cached)))
  }

  // ---------- parameters ----------

  function Clamp(x: real, lo: real, hi: real): real {
    if x < lo then lo else if x > hi then hi else x
  }

  function Sanitized(p: Params): Params {
    p.(inputGain := Clamp(p.inputGain, GAIN_MIN_DB, GAIN_MAX_DB),
       outputGain := Clamp(p.outputGain, GAIN_MIN_DB, GAIN_MAX_DB),
       gate := Clamp(p.gate, -90.0, -40.0))
  }

  /** The oversampling latency policy: while active, ask for a restart. */
  function OversamplePolicy(side: Side, bufferSize: nat, f: OversampleFactor): Side {
    if bufferSize > 0 then
      if Decode(side.pendingRestart) == Pending(f) then side
      else side.(pendingRestart := Encode(Pending(f)))
    else side.(rebuildRequest := Some(f))
  }

  /** A changed factor is adopted and put through the policy. */
  function RequestOversample(d: Dsp, f: OversampleFactor): Dsp {
    if f == d.control.params.oversample then d
    else d.(control := d.control.(params := d.control.params.(oversample := f)),
            side := OversamplePolicy(d.side, d.cfg.bufferSize, f))
  }

  /** A host event also publishes the factor for the GUI. */
  function HostRequest(d: Dsp, f: OversampleFactor): Dsp {
    if f == d.control.params.oversample then d
    else
      var e := RequestOversample(d, f);
      e.(side := e.side.(oversampleCell := f))
  }

  /** What reaches the processor besides commands. */
  datatype ParamEvent =
    | HostOversample(factor: OversampleFactor)    // from the host's event queue
    | HostAdaptive(mode: AdaptiveMode)
    | GuiOversample(factor: OversampleFactor)     // stored by the GUI in a cell
    | GuiAdaptive(mode: AdaptiveMode)
    | GuiSync                                     // the cells, read by a callback
    | RenderSeen(offline: bool)                   // the render mode, read by a callback

  /** The GUI only stores into its cells. */
  predicate FromGui(e: ParamEvent) { e.GuiOversample? || e.GuiAdaptive? }

  /** The cell overrides the parameter and the controller where it differs from either. */
  function AdaptiveSynced(d: Dsp): Dsp {
    var m := d.side.adaptiveCell;
    if m == d.control.params.adaptive == d.side.adaptive.mode then d
    else
      d.(control := d.control.(params := d.control.params.(adaptive := m)),
         side := d.side.(adaptive := d.side.adaptive.(mode := m)))
  }

  function GuiSynced(d: Dsp): Dsp {
    var e := AdaptiveSynced(d);
    RequestOversample(e, e.side.oversampleCell)
  }

  /** Offline the adaptive controller is off and the activation functions are the standard ones.
      Back in real time the mode comes from the GUI's cell and the activation functions from what
      was kept on entry. */
  function RenderHonored(d: Dsp, offline: bool): Dsp {
    if offline && !d.side.offline then
      d.(control := d.control.(params := d.control.params.(activation := Standard)),
         side := d.side.(offline := true, realtimeActivation := d.control.params.activation, precision := Standard,
                         adaptive := d.side.adaptive.(mode := ComputeOff)))
    else if offline then
      d.(side := d.side.(adaptive := d.side.adaptive.(mode := ComputeOff)))
    else if d.side.offline then
      d.(control := d.control.(params := d.control.params.(activation := d.side.realtimeActivation)),
         side := d.side.(offline := false, precision := d.side.realtimeActivation,
                         adaptive := d.side.adaptive.(mode := d.side.adaptiveCell)))
    else d
  }

  function Adjusted(d: Dsp, e: ParamEvent): Dsp {
    match e
    case HostOversample(f) => HostRequest(d, f)
    case HostAdaptive(m) =>
      d.(control := d.control.(params := d.control.params.(adaptive := m)),
         side := d.side.(adaptiveCell := m, adaptive := d.side.adaptive.(mode := m)))
    case GuiOversample(f) => d.(side := d.side.(oversampleCell := f))
    case GuiAdaptive(m) => d.(side := d.side.(adaptiveCell := m))
    case GuiSync => GuiSynced(d)
    case RenderSeen(offline) => RenderHonored(d, offline)
  }

  /** None of it touches what commands install, the latencies or the reported tail. */
  lemma AdjustedKeeps(d: Dsp, e: ParamEvent)
    ensures var x := Adjusted(d, e);
            (x.cfg, x.chain, x.os, x.ir, x.latency) == (d.cfg, d.chain, d.os, d.ir, d.latency)
            && x.appliedRestore == d.appliedRestore && x.retired == d.retired
            && x.side.currentLatency == d.side.currentLatency && x.side.lastTail == d.side.lastTail
            && x.side.tailCalls == d.side.tailCalls
  {}

  function ControlOf(cfg: Config, p: Params): Control {
    var q := Sanitized(p);
    Control(q, q.inputGain + cfg.modInput, q.outputGain + cfg.modOutput)
  }

  function ParamsSide(side: Side, bufferSize: nat, was: Params, q: Params): Side {
    var s := side.(adaptive := Followed(side.adaptive, was, q));
    var t := if was.oversample != q.oversample then OversamplePolicy(s, bufferSize, q.oversample) else s;
    t.(precision := if was.activation != q.activation then q.activation else t.precision,
       gateDirty := t.gateDirty || was.gate != q.gate)
  }

  /** Only a changed parameter is passed on. */
  function Followed(a: Adaptive, was: Params, q: Params): Adaptive {
    a.(mode := if was.adaptive != q.adaptive then q.adaptive else a.mode,
       slim := if was.slim != q.slim then q.slim else a.slim)
  }

  function ApplyParams(d: Dsp, p: Params): Dsp {
    d.(control := ControlOf(d.cfg, p),
       side := ParamsSide(d.side, d.cfg.bufferSize, d.control.params, Sanitized(p)))
  }

  // ---------- structural commands ----------

  function ChainItems(c: Chain): multiset<GcItem> {
    ModelItems(c.modelL) + ModelItems(c.modelR) + multiset{ResamplerItem(c.resampler), StreamItem(c.stream)}
  }

  function OsItems(o: Oversampling): multiset<GcItem> {
    multiset{EngineItem(o.osL), EngineItem(o.osR)}
  }

  /** A fresh model arrives converged, so the swap also ends any prewarm in progress. */
  function ChainOf(m: LoadModel): Chain {
    Chain(m.modelL, m.modelR, m.generation, m.resampler, m.stream, m.inputMult, m.outputMult, false, 0, m.costNs)
  }

  function Informed(side: Side, m: Option<Model>): Side {
    if m.Some? && m.value.wavenet.Some? then
      side.(adaptive := side.adaptive.(fullChannels := m.value.wavenet))
    else side
  }

  function InstallModel(d: Dsp, m: LoadModel): Dsp {
    Recompute(d.(chain := ChainOf(m), latency := d.latency.(stream := m.stream.latency),
                 retired := d.retired + ChainItems(d.chain), side := Informed(d.side, m.modelL)))
  }

  /** An impulse response built for another host rate is refused. */
  predicate Accepts(cfg: Config, pair: Option<Ir>) {
    pair.Some? && cfg.hostRate != 0 ==> pair.value.sampleRate == cfg.hostRate
  }

  function InstallIr(d: Dsp, pair: Option<Ir>): Dsp {
    if !Accepts(d.cfg, pair) then
      d.(retired := d.retired + IrItems(pair), side := d.side.(contractViolation := true))
    else
      CheckTail(Recompute(d.(
        ir := pair, latency := d.latency.(ir := IrLatencyOf(pair), irTail := IrTailOf(pair)),
        retired := d.retired + IrItems(d.ir))))
  }

  function InstallOversample(d: Dsp, l: Engine, r: Engine): Dsp {
    Recompute(d.(os := Oversampling(l, r, l.factor), retired := d.retired + OsItems(d.os)))
  }

  function MaybeModel(d: Dsp, m: Option<LoadModel>): Dsp {
    if m.Some? then InstallModel(d, m.value) else d
  }

  function MaybeIr(d: Dsp, ir: Option<Option<Ir>>): Dsp {
    if ir.Some? then InstallIr(d, ir.value) else d
  }

  function InstallRestore(d: Dsp, t: RestoreTxn): Dsp {
    ApplyParams(MaybeIr(MaybeModel(d, t.model), t.ir), t.params).(appliedRestore := t.generation)
  }

  function Install(d: Dsp, p: Payload): Dsp {
    match p
    case ParamsUpdate(q) => ApplyParams(d, q)
    case Load(m) => InstallModel(d, m)
    case LoadCabIr(pair) => InstallIr(d, pair)
    case SetOversample(l, r) => InstallOversample(d, l, r)
    case Restore(t) => InstallRestore(d, t)
  }

  /** A superseded command is never applied; its resources are retired. */
  function Discard(d: Dsp, p: Payload): Dsp {
    d.(retired := d.retired + Items(p))
  }

  /** Plain first-in first-out installation. */
  function InstallAll(d: Dsp, ps: seq<Payload>): Dsp
    decreases |ps|
  {
    if ps == [] then d else InstallAll(Install(d, ps[0]), ps[1..])
  }

  // ---------- meaning ----------

  /** Equal in everything that gives a command sequence its meaning. */
  predicate Same(a: Dsp, b: Dsp) {
    a.cfg == b.cfg && a.chain == b.chain && a.os == b.os && a.ir == b.ir && a.control == b.control
    && a.latency == b.latency && a.appliedRestore == b.appliedRestore && a.retired == b.retired
  }

  lemma InstallRespectsMeaning(a: Dsp, b: Dsp, p: Payload)
    requires Same(a, b)
    ensures Same(Install(a, p), Install(b, p))
  {
    match p {
      case Restore(t) =>
        var a1, b1 := MaybeModel(a, t.model), MaybeModel(b, t.model);
        assert Same(a1, b1);
        IrRespectsMeaning(a1, b1, t.ir);
      case LoadCabIr(pair) => IrRespectsMeaning(a, b, Some(pair));
      case _ =>
    }
  }

  lemma IrRespectsMeaning(a: Dsp, b: Dsp, ir: Option<Option<Ir>>)
    requires Same(a, b)
    ensures Same(MaybeIr(a, ir), MaybeIr(b, ir))
  {}

  lemma {:induction false} InstallAllRespectsMeaning(a: Dsp, b: Dsp, ps: seq<Payload>)
    requires Same(a, b)
    ensures Same(InstallAll(a, ps), InstallAll(b, ps))
    decreases |ps|
  {
    if ps != [] {
      InstallRespectsMeaning(a, b, ps[0]);
      InstallAllRespectsMeaning(Install(a, ps[0]), Install(b, ps[0]), ps[1..]);
    }
  }

  lemma {:induction false} InstallAllAppend(d: Dsp, a: seq<Payload>, b: seq<Payload>)
    ensures InstallAll(d, a + b) == InstallAll(InstallAll(d, a), b)
    decreases |a|
  {
    if a == [] {
      assert a + b == b;
    } else {
      assert (a + b)[0] == a[0] && (a + b)[1..] == a[1..] + b;
      InstallAllAppend(Install(d, a[0]), a[1..], b);
    }
  }

  /** Applying a parameter snapshot right after another hides the first. */
  lemma SnapshotHidesSnapshot(d: Dsp, p: Params, q: Params)
    ensures Same(ApplyParams(ApplyParams(d, p), q), ApplyParams(d, q))
  {}

  /** When may the older of two commands of one kind be thrown away unapplied? */
  predicate MaySupersede(d: Dsp, older: Payload, newer: Payload) {
    older.LoadCabIr? && newer.LoadCabIr?
    ==> Accepts(d.cfg, newer.pair) || !Accepts(d.cfg, older.pair) || older.pair == d.ir
  }

  /** The figures follow from what is installed: the latency is the sum of the three contributions
      in 32 bits, the dry path is delayed by it as far as its line reaches, and each published
      contribution is the installed resource's own. */
  predicate LatencyConsistent(d: Dsp) {
    var partition := if d.ir.Some? then d.ir.value.partitionSize else 0;
    var tail := if d.ir.Some? then d.ir.value.partitions * d.ir.value.blockLatency else 0;
    d.latency.cached == (d.chain.stream.latency + d.os.osL.latency + partition) % U32_COUNT
    && d.latency.dryDelay == (if d.latency.cached <= d.cfg.dryCapacity then d.latency.cached else d.cfg.dryCapacity)
    && d.latency.stream == d.chain.stream.latency
    && d.latency.ir == partition % U32_COUNT
    && d.latency.irTail == tail % U32_COUNT
  }

  /** Within 32 bits the figures are exact. */
  lemma FiguresAreExact(d: Dsp)
    requires LatencyConsistent(d)
    ensures d.ir.None? ==>
              d.latency.ir == d.latency.irTail == 0
              && (d.chain.stream.latency + d.os.osL.latency <= U32_MAX ==>
                    d.latency.cached == d.chain.stream.latency + d.os.osL.latency)
    ensures d.ir.Some? ==>
              (d.ir.value.partitionSize <= U32_MAX ==> d.latency.ir == d.ir.value.partitionSize)
              && (d.ir.value.partitions * d.ir.value.blockLatency <= U32_MAX ==>
                    d.latency.irTail == d.ir.value.partitions * d.ir.value.blockLatency)
              && (d.chain.stream.latency + d.os.osL.latency + d.ir.value.partitionSize <= U32_MAX ==>
                    d.latency.cached == d.chain.stream.latency + d.os.osL.latency + d.ir.value.partitionSize)
  {}

  /** Latest-wins is exact: throwing the older command away and installing the newer
      gives the state and the retired resources of installing both, if and only if the
      newer one is accepted, or the older one is refused or changes nothing. */
  lemma SupersessionIsExact(d: Dsp, older: Payload, newer: Payload)
    requires SameKey(older, newer) && LatencyConsistent(d)
    ensures Same(Install(Discard(d, older), newer), Install(Install(d, older), newer))
            <==> MaySupersede(d, older, newer)
  {
    match older {
      case Load(m) => ModelSupersession(d, m, newer.load);
      case LoadCabIr(pair) =>
        if Accepts(d.cfg, newer.pair) || !Accepts(d.cfg, pair) { IrSupersession(d, pair, newer.pair); }
        else { RefusedSuccessor(d, pair, newer.pair); }
      case SetOversample(l, r) => OversampleSupersession(d, l, r, newer.osL, newer.osR);
      case _ =>
    }
  }

  lemma ModelSupersession(d: Dsp, m: LoadModel, n: LoadModel)
    ensures Same(InstallModel(Discard(d, Load(m)), n), InstallModel(InstallModel(d, m), n))
  {
    assert ChainItems(ChainOf(m)) == LoadItems(m);
  }

  lemma IrSupersession(d: Dsp, p: Option<Ir>, q: Option<Ir>)
    requires Accepts(d.cfg, q) || !Accepts(d.cfg, p)
    ensures Same(InstallIr(Discard(d, LoadCabIr(p)), q), InstallIr(InstallIr(d, p), q))
  {}

  lemma RefusedSuccessor(d: Dsp, p: Option<Ir>, q: Option<Ir>)
    requires LatencyConsistent(d) && Accepts(d.cfg, p) && !Accepts(d.cfg, q)
    ensures Same(InstallIr(Discard(d, LoadCabIr(p)), q), InstallIr(InstallIr(d, p), q)) <==> p == d.ir
  {
    hide InstallIr, Discard, LatencyConsistent, Accepts, Same;
    var a, b := Discard(d, LoadCabIr(p)), InstallIr(d, p);
    DiscardKeepsIr(d, p);
    RefusedKeepsIr(a, q);
    RefusedKeepsIr(b, q);
    if p == d.ir {
      SameIrAgain(d);
      IrRespectsMeaning(a, b, Some(q));
    } else {
      DifferentIrs(InstallIr(a, q), InstallIr(b, q));
    }
  }

  lemma RefusedKeepsIr(d: Dsp, q: Option<Ir>)
    ensures !Accepts(d.cfg, q) ==> InstallIr(d, q).ir == d.ir
    ensures Accepts(d.cfg, q) ==> InstallIr(d, q).ir == q
    ensures InstallIr(d, q).cfg == d.cfg && MaybeIr(d, Some(q)) == InstallIr(d, q)
  {}

  lemma DiscardKeepsIr(d: Dsp, p: Option<Ir>)
    ensures Discard(d, LoadCabIr(p)).ir == d.ir && Discard(d, LoadCabIr(p)).cfg == d.cfg
    ensures Accepts(d.cfg, p) ==> InstallIr(d, p).ir == p && InstallIr(d, p).cfg == d.cfg
  {}

  lemma DifferentIrs(a: Dsp, b: Dsp)
    requires a.ir != b.ir
    ensures !Same(a, b)
  {}

  /** Installing the impulse response that is installed already changes no figure. */
  lemma SameIrAgain(d: Dsp)
    requires LatencyConsistent(d) && Accepts(d.cfg, d.ir)
    ensures Same(Discard(d, LoadCabIr(d.ir)), InstallIr(d, d.ir))
  {}

  lemma OversampleSupersession(d: Dsp, l: Engine, r: Engine, l': Engine, r': Engine)
    ensures Same(InstallOversample(Discard(d, SetOversample(l, r)), l', r'),
                 InstallOversample(InstallOversample(d, l, r), l', r'))
  {}

  // ---------- latency and tail consistency ----------

  lemma IrKeepsLatency(d: Dsp, pair: Option<Ir>)
    requires LatencyConsistent(d)
    ensures LatencyConsistent(InstallIr(d, pair))
  {}

  lemma ModelKeepsLatency(d: Dsp, m: LoadModel)
    requires LatencyConsistent(d)
    ensures LatencyConsistent(InstallModel(d, m))
  {
    hide ChainItems, EffectiveLatency;
  }

  lemma OversampleKeepsLatency(d: Dsp, l: Engine, r: Engine)
    requires LatencyConsistent(d)
    ensures LatencyConsistent(InstallOversample(d, l, r))
  {
    hide EffectiveLatency;
  }

  lemma ParamsKeepLatency(d: Dsp, p: Params)
    requires LatencyConsistent(d)
    ensures LatencyConsistent(ApplyParams(d, p))
  {
    hide ControlOf, ParamsSide;
  }

  lemma RestoreKeepsLatency(d: Dsp, t: RestoreTxn)
    requires LatencyConsistent(d)
    ensures LatencyConsistent(InstallRestore(d, t))
  {
    hide LatencyConsistent, InstallModel, InstallIr, ApplyParams;
    if t.model.Some? { ModelKeepsLatency(d, t.model.value); }
    var a := MaybeModel(d, t.model);
    if t.ir.Some? { IrKeepsLatency(a, t.ir.value); }
    ParamsKeepLatency(MaybeIr(a, t.ir), t.params);
    AppliedLeavesLatency(ApplyParams(MaybeIr(a, t.ir), t.params), t.generation);
  }

  lemma AppliedLeavesLatency(d: Dsp, generation: nat)
    ensures LatencyConsistent(d.(appliedRestore := generation)) == LatencyConsistent(d)
  {}

  /** Every command keeps the latency figures consistent. */
  lemma InstallKeepsLatency(d: Dsp, p: Payload)
    requires LatencyConsistent(d)
    ensures LatencyConsistent(Install(d, p))
  {
    hide LatencyConsistent, InstallModel, InstallIr, InstallOversample, InstallRestore, ApplyParams;
    match p {
      case ParamsUpdate(q) => ParamsKeepLatency(d, q);
      case Load(m) => ModelKeepsLatency(d, m);
      case LoadCabIr(pair) => IrKeepsLatency(d, pair);
      case SetOversample(l, r) => OversampleKeepsLatency(d, l, r);
      case Restore(t) => RestoreKeepsLatency(d, t);
    }
  }

  /** The tail-changed calls are exactly the changes of the reported value. */
  predicate TailReported(s: Side, initial: nat) {
    s.lastTail == (if s.tailCalls == [] then initial else s.tailCalls[|s.tailCalls| - 1])
    && (s.tailCalls != [] ==> s.tailCalls[0] != initial)
    && forall i :: 0 < i < |s.tailCalls| ==> s.tailCalls[i] != s.tailCalls[i - 1]
  }

  lemma ReportKeepsRecord(s: Side, tail: nat, initial: nat)
    requires TailReported(s, initial)
    ensures TailReported(Reported(s, tail), initial) && Reported(s, tail).lastTail == tail
  {}

  lemma InstallReportsTail(d: Dsp, p: Payload, initial: nat)
    requires TailReported(d.side, initial)
    ensures TailReported(Install(d, p).side, initial)
  {
    match p {
      case Restore(t) =>
        var a := MaybeModel(d, t.model);
        hide MaybeModel, InstallIr, ApplyParams, TailReported;
        ModelLeavesTail(d, t.model, initial);
        if t.ir.Some? { IrReportsTail(a, t.ir.value, initial); }
        ParamsLeaveTail(MaybeIr(a, t.ir), t.params, initial);
      case LoadCabIr(pair) => IrReportsTail(d, pair, initial);
      case ParamsUpdate(q) => ParamsLeaveTail(d, q, initial);
      case Load(m) => ModelLeavesTail(d, Some(m), initial);
      case _ =>
    }
  }

  lemma ModelLeavesTail(d: Dsp, m: Option<LoadModel>, initial: nat)
    requires TailReported(d.side, initial)
    ensures TailReported(MaybeModel(d, m).side, initial)
  {
    hide ChainItems;
  }

  lemma ParamsLeaveTail(d: Dsp, p: Params, initial: nat)
    requires TailReported(d.side, initial)
    ensures TailReported(ApplyParams(d, p).side, initial)
  {}

  /** An accepted impulse response announces the new latency plus the new tail, in 32 bits. */
  lemma IrReportsTail(d: Dsp, pair: Option<Ir>, initial: nat)
    requires TailReported(d.side, initial)
    ensures var e := InstallIr(d, pair);
            TailReported(e.side, initial)
            && (Accepts(d.cfg, pair) ==>
                  e.side.lastTail == if e.latency.cached + e.latency.irTail <= U32_MAX
                                     then e.latency.cached + e.latency.irTail else U32_MAX)
  {
    if Accepts(d.cfg, pair) { ReportKeepsRecord(d.side, InstallIr(d, pair).side.lastTail, initial); }
  }

  /** At the end of a callback the host reads exactly the tail it was last told about. */
  lemma CallbackEndAgrees(d: Dsp, initial: nat)
    requires TailReported(d.side, initial)
    ensures TailReported(FinishCallback(d).side, initial)
    ensures TailReader(FinishCallback(d)) == FinishCallback(d).side.lastTail
            == if d.latency.cached + d.latency.irTail <= U32_MAX then d.latency.cached + d.latency.irTail else U32_MAX
    ensures FinishCallback(d).side.currentLatency == d.latency.cached
    ensures LatencyConsistent(d) ==> LatencyConsistent(FinishCallback(d))
  {
    ReportKeepsRecord(d.side.(currentLatency := d.latency.cached), TailOf(d), initial);
  }

  /** Inside the drain the announcement can be ahead of the reader.  Right after an accepted
      impulse-response swap the host reads the announced tail if and only if the latency it has
      already been given is the new one, or both sums are beyond 32 bits. */
  lemma TailReaderInsideDrain(d: Dsp, pair: Option<Ir>)
    requires Accepts(d.cfg, pair)
    ensures var e := InstallIr(d, pair);
            var partition := if pair.Some? then pair.value.partitionSize else 0;
            var product := if pair.Some? then pair.value.partitions * pair.value.blockLatency else 0;
            var latency := (d.chain.stream.latency + d.os.osL.latency + partition) % U32_COUNT;
            var tail := product % U32_COUNT;
            TailReader(e) == e.side.lastTail
            <==> (d.side.currentLatency == latency
                  || (d.side.currentLatency + tail >= U32_MAX && latency + tail >= U32_MAX))
  {
    hide EffectiveLatency, DryDelayFor;
    SaturatedSums(d.side.currentLatency, EffectiveLatency(d.chain.stream, d.os.osL, pair), IrTailOf(pair));
  }

  lemma SaturatedSums(a: nat, b: nat, t: nat)
    ensures SatAdd(a, t) == SatAdd(b, t) <==> a == b || (a + t >= U32_MAX && b + t >= U32_MAX)
  {}

  /** The announcement is ahead: right after a callback with no impulse response, loading one of
      128-sample partitions tells the host a tail it cannot read yet. */
  lemma TailAheadOfReader(d: Dsp, ir: Ir)
    requires d.ir.None? && LatencyConsistent(d) && d.side.currentLatency == d.latency.cached
    requires d.latency.cached < 1000 && ir.partitionSize == 128 && ir.partitions == 4 && ir.blockLatency == 128
    requires d.chain.stream.latency + d.os.osL.latency < 1000 && Accepts(d.cfg, Some(ir))
    ensures var e := InstallIr(d, Some(ir));
            TailReader(e) == d.latency.cached + 512 && e.side.lastTail == d.latency.cached + 640
  {}

  // ---------- the pending restart ----------

  lemma PendingRoundTrip(p: PendingRestart, raw: nat)
    ensures Decode(Encode(p)) == p
    ensures raw <= 3 ==> Encode(Decode(raw)) == raw
    ensures Encode(p) == 0 <==> p == NotPending
  {
    match raw case 0 => case 1 => case 2 => case 3 => case _ =>
  }

  /** While active, once any oversampling change has been seen, the pending request is the
      current requested factor, `Off` included; otherwise it is what it was `before`. */
  predicate RestartTracksRequest(d: Dsp, changed: bool, before: PendingRestart) {
    Decode(d.side.pendingRestart)
    == if d.cfg.bufferSize > 0 && changed then Pending(d.control.params.oversample) else before
  }

  lemma RequestTracks(d: Dsp, f: OversampleFactor, changed: bool, before: PendingRestart)
    requires RestartTracksRequest(d, changed, before)
    ensures RestartTracksRequest(RequestOversample(d, f), changed || f != d.control.params.oversample, before)
    ensures RequestOversample(d, f).control.params.oversample == f
  {
    PendingRoundTrip(Pending(f), 0);
  }

  lemma ParamsTrack(d: Dsp, p: Params, changed: bool, before: PendingRestart)
    requires RestartTracksRequest(d, changed, before)
    ensures RestartTracksRequest(ApplyParams(d, p), changed || p.oversample != d.control.params.oversample, before)
  {
    PendingRoundTrip(Pending(p.oversample), 0);
  }

  /** Any change of the requested factor is pending afterwards. */
  lemma AdjustedTracks(d: Dsp, e: ParamEvent, changed: bool, before: PendingRestart)
    requires RestartTracksRequest(d, changed, before)
    ensures RestartTracksRequest(
      Adjusted(d, e), changed || Adjusted(d, e).control.params.oversample != d.control.params.oversample, before)
  {
    match e {
      case HostOversample(f) => RequestTracks(d, f, changed, before);
      case GuiSync =>
        var x := AdaptiveSynced(d);
        RequestTracks(x, x.side.oversampleCell, changed, before);
      case _ =>
    }
  }

  lemma InstallTracks(d: Dsp, p: Payload, changed: bool, before: PendingRestart)
    requires RestartTracksRequest(d, changed, before)
    ensures RestartTracksRequest(
      Install(d, p), changed || Install(d, p).control.params.oversample != d.control.params.oversample, before)
  {
    match p {
      case Restore(t) =>
        SwapsLeaveRequests(d, t);
        ParamsTrack(MaybeIr(MaybeModel(d, t.model), t.ir), t.params, changed, before);
      case ParamsUpdate(q) => ParamsTrack(d, q, changed, before);
      case _ =>
    }
  }

  lemma SwapsLeaveRequests(d: Dsp, t: RestoreTxn)
    ensures var b := MaybeIr(MaybeModel(d, t.model), t.ir);
            b.side.pendingRestart == d.side.pendingRestart && b.control == d.control && b.cfg == d.cfg
  {
    IrLeavesRequests(MaybeModel(d, t.model), t.ir);
  }

  lemma IrLeavesRequests(d: Dsp, ir: Option<Option<Ir>>)
    ensures var b := MaybeIr(d, ir);
            b.side.pendingRestart == d.side.pendingRestart && b.control == d.control && b.cfg == d.cfg
  {}

  // ---------- the controllers ----------

  /** The slim override and the activation functions are set as the parameters say. */
  predicate Follows(d: Dsp) {
    d.side.adaptive.slim == d.control.params.slim && d.side.precision == d.control.params.activation
  }

  /** In real time the adaptive mode is the parameter's, unless it has drifted. */
  predicate ModeTracked(d: Dsp, drifted: bool) {
    !d.side.offline ==> (d.side.adaptive.mode == d.control.params.adaptive <==> !drifted)
  }

  /** Passing on changed parameters only never lets a controller drift, and a snapshot that changes
      the mode ends a drift. */
  lemma InstallKeepsControllers(d: Dsp, p: Payload, drifted: bool)
    requires Follows(d) && ModeTracked(d, drifted)
    ensures Follows(Install(d, p))
    ensures ModeTracked(Install(d, p), drifted && Install(d, p).control.params.adaptive == d.control.params.adaptive)
  {
    hide ApplyParams, MaybeModel, MaybeIr, InstallModel, InstallIr, InstallOversample, Follows, ModeTracked;
    match p {
      case Restore(t) => RestoreKeepsControllers(d, t, drifted);
      case ParamsUpdate(q) => ParamsKeepControllers(d, q, drifted);
      case _ => SwapKeepsControllers(d, p, drifted);
    }
  }

  lemma SwapKeepsControllers(d: Dsp, p: Payload, drifted: bool)
    requires Follows(d) && ModeTracked(d, drifted) && (p.Load? || p.LoadCabIr? || p.SetOversample?)
    ensures Follows(Install(d, p)) && ModeTracked(Install(d, p), drifted) && Install(d, p).control == d.control
  {
    hide MaybeModel, MaybeIr, ChainItems;
    match p {
      case Load(m) => ModelLeavesControllers(d, Some(m)); AsMaybe(d, Some(m), None);
      case LoadCabIr(pair) => IrLeavesControllers(d, Some(pair)); AsMaybe(d, None, Some(pair));
      case SetOversample(_, _) =>
    }
  }

  lemma AsMaybe(d: Dsp, m: Option<LoadModel>, ir: Option<Option<Ir>>)
    ensures m.Some? ==> MaybeModel(d, m) == InstallModel(d, m.value)
    ensures ir.Some? ==> MaybeIr(d, ir) == InstallIr(d, ir.value)
  {
    hide InstallModel, InstallIr;
  }

  lemma RestoreKeepsControllers(d: Dsp, t: RestoreTxn, drifted: bool)
    requires Follows(d) && ModeTracked(d, drifted)
    ensures var e := InstallRestore(d, t);
            Follows(e) && ModeTracked(e, drifted && e.control.params.adaptive == d.control.params.adaptive)
  {
    hide ApplyParams, MaybeModel, MaybeIr;
    var b := MaybeIr(MaybeModel(d, t.model), t.ir);
    SwapsLeaveControllers(d, t);
    ParamsKeepControllers(b, t.params, drifted);
  }

  lemma ParamsKeepControllers(d: Dsp, p: Params, drifted: bool)
    requires Follows(d) && ModeTracked(d, drifted)
    ensures Follows(ApplyParams(d, p))
    ensures ModeTracked(ApplyParams(d, p), drifted && p.adaptive == d.control.params.adaptive)
    ensures ApplyParams(d, p).control.params.adaptive == p.adaptive
  {
    hide Clamp, OversamplePolicy;
    PolicyLeavesControllers(d.side, d.cfg.bufferSize, p.oversample);
    PolicyLeavesControllers(
      d.side.(adaptive := Followed(d.side.adaptive, d.control.params, Sanitized(p))), d.cfg.bufferSize, p.oversample);
  }

  lemma PolicyLeavesControllers(s: Side, bufferSize: nat, f: OversampleFactor)
    ensures var t := OversamplePolicy(s, bufferSize, f);
            t.adaptive == s.adaptive && t.precision == s.precision && t.offline == s.offline
  {}

  lemma SwapsLeaveControllers(d: Dsp, t: RestoreTxn)
    ensures var b := MaybeIr(MaybeModel(d, t.model), t.ir);
            b.control == d.control && b.side.adaptive.mode == d.side.adaptive.mode
            && b.side.adaptive.slim == d.side.adaptive.slim && b.side.precision == d.side.precision
            && b.side.offline == d.side.offline
  {
    hide ChainItems, IrItems, EffectiveLatency, MaybeModel, MaybeIr;
    ModelLeavesControllers(d, t.model);
    IrLeavesControllers(MaybeModel(d, t.model), t.ir);
  }

  lemma ModelLeavesControllers(d: Dsp, m: Option<LoadModel>)
    ensures var b := MaybeModel(d, m);
            b.control == d.control && b.side.(adaptive := d.side.adaptive) == d.side
            && b.side.adaptive.mode == d.side.adaptive.mode && b.side.adaptive.slim == d.side.adaptive.slim
  {
    hide ChainItems, EffectiveLatency;
  }

  lemma IrLeavesControllers(d: Dsp, ir: Option<Option<Ir>>)
    ensures var b := MaybeIr(d, ir);
            b.control == d.control && b.side.adaptive == d.side.adaptive && b.side.precision == d.side.precision
            && b.side.offline == d.side.offline
  {
    hide IrItems, EffectiveLatency;
  }

  /** Whether the adaptive mode has drifted from its parameter after an event.  Coming back from
      offline rendering takes the mode from the GUI's cell, whatever the parameter has become. */
  function DriftedBy(d: Dsp, e: ParamEvent, drifted: bool): bool {
    match e
    case HostAdaptive(_) => false
    case GuiSync => false
    case RenderSeen(offline) =>
      if !offline && d.side.offline then d.side.adaptiveCell != d.control.params.adaptive else drifted
    case _ => drifted
  }

  lemma AdjustedControllers(d: Dsp, e: ParamEvent, drifted: bool)
    requires Follows(d) && ModeTracked(d, drifted)
    ensures Follows(Adjusted(d, e)) && ModeTracked(Adjusted(d, e), DriftedBy(d, e, drifted))
  {
    hide OversamplePolicy;
    if e.HostOversample? { PolicyLeavesControllers(d.side, d.cfg.bufferSize, e.factor); }
    if e.GuiSync? {
      var x := AdaptiveSynced(d);
      PolicyLeavesControllers(x.side, x.cfg.bufferSize, x.side.oversampleCell);
    }
  }

  /** A drift is real and lasts: a snapshot changes the mode while rendering offline and leaves the
      GUI's cell behind; back in real time the controller runs the old mode, and the same snapshot
      sent again does not correct it. */
  lemma ModeDrifts(d: Dsp, p: Params)
    requires d.side.offline && d.control.params.adaptive == d.side.adaptiveCell == Conservative && p.adaptive == Aggressive
    ensures var back := RenderHonored(ApplyParams(d, p), false);
            back.control.params.adaptive == Aggressive && back.side.adaptive.mode == Conservative
            && ApplyParams(back, p).side.adaptive.mode == Conservative
  {
    hide Clamp;
  }

  // ---------- ownership ----------

  /** Every resource the processor holds: installed, or handed to the collector. */
  function Owned(d: Dsp): multiset<GcItem> {
    ChainItems(d.chain) + OsItems(d.os) + IrItems(d.ir) + d.retired
  }

  lemma ModelConserves(d: Dsp, m: LoadModel)
    ensures Owned(InstallModel(d, m)) == Owned(d) + LoadItems(m)
  {
    assert ChainItems(ChainOf(m)) == LoadItems(m);
  }

  lemma IrConserves(d: Dsp, pair: Option<Ir>)
    ensures Owned(InstallIr(d, pair)) == Owned(d) + IrItems(pair)
  {}

  lemma OversampleConserves(d: Dsp, l: Engine, r: Engine)
    ensures Owned(InstallOversample(d, l, r)) == Owned(d) + multiset{EngineItem(l), EngineItem(r)}
  {}

  lemma MaybeModelConserves(d: Dsp, m: Option<LoadModel>)
    ensures Owned(MaybeModel(d, m)) == Owned(d) + MaybeLoadItems(m)
  {
    if m.Some? { ModelConserves(d, m.value); }
  }

  lemma MaybeIrConserves(d: Dsp, ir: Option<Option<Ir>>)
    ensures Owned(MaybeIr(d, ir)) == Owned(d) + MaybeIrItems(ir)
  {
    if ir.Some? { IrConserves(d, ir.value); }
  }

  lemma RestoreConserves(d: Dsp, t: RestoreTxn)
    ensures Owned(InstallRestore(d, t)) == Owned(d) + Items(Restore(t))
  {
    hide Owned, MaybeModel, MaybeIr, ApplyParams, MaybeLoadItems, MaybeIrItems;
    MaybeModelConserves(d, t.model);
    MaybeIrConserves(MaybeModel(d, t.model), t.ir);
    ParamsOwnNothing(MaybeIr(MaybeModel(d, t.model), t.ir), t);
  }

  lemma ParamsOwnNothing(d: Dsp, t: RestoreTxn)
    ensures Owned(ApplyParams(d, t.params).(appliedRestore := t.generation)) == Owned(d)
  {}

  /** Installing neither loses nor duplicates a resource. */
  lemma InstallConserves(d: Dsp, p: Payload)
    ensures Owned(Install(d, p)) == Owned(d) + Items(p)
  {
    hide Owned, InstallModel, InstallIr, InstallOversample, InstallRestore, LoadItems, IrItems, ApplyParams;
    match p {
      case ParamsUpdate(q) => SnapshotOwnsNothing(d, q);
      case Load(m) => ModelConserves(d, m);
      case LoadCabIr(pair) => IrConserves(d, pair);
      case SetOversample(l, r) => OversampleConserves(d, l, r);
      case Restore(t) => RestoreConserves(d, t);
    }
  }

  lemma SnapshotOwnsNothing(d: Dsp, p: Params)
    ensures Owned(ApplyParams(d, p)) == Owned(d)
  {}

  /** The left model was built for the active generation. */
  predicate GenerationMatches(d: Dsp) {
    d.chain.modelL.Some? ==> d.chain.modelL.value.born == d.chain.generation
  }

  predicate StampedLoad(m: LoadModel) { m.modelL.Some? ==> m.modelL.value.born == m.generation }

  /** The main thread stamps the model of a command with the command's generation. */
  predicate Stamped(p: Payload) {
    (p.Load? ==> StampedLoad(p.load))
    && (p.Restore? && p.txn.model.Some? ==> StampedLoad(p.txn.model.value))
  }

  lemma InstallKeepsGeneration(d: Dsp, p: Payload)
    requires GenerationMatches(d) && Stamped(p)
    ensures GenerationMatches(Install(d, p))
  {}
}
