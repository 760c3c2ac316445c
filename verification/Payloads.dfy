/** The commands that travel from the main thread to the audio thread, the heap
    resources they carry, and their classification for the drain. */
module Payloads {
  import opened Options

  // ---------- parameters ----------

  datatype AdaptiveMode = ComputeOff | Conservative | Aggressive
  datatype SlimOverride = Auto | ForceFull | ForceLite
  datatype OversampleFactor = Off | X2 | X4
  datatype Activation = Fast | Standard

  datatype Params = Params(
    inputGain: real,
    outputGain: real,
    gate: real,
    bypass: bool,
    adaptive: AdaptiveMode,
    slim: SlimOverride,
    oversample: OversampleFactor,
    activation: Activation)

  function FactorIndex(f: OversampleFactor): nat {
    match f case Off => 0 case X2 => 1 case X4 => 2
  }

  /** The pending host-restart request.  Its raw form is offset by one, so that a
      pending change to `Off` is not the same as nothing pending. */
  datatype PendingRestart = NotPending | Pending(factor: OversampleFactor)

  function Encode(p: PendingRestart): nat {
    match p case NotPending => 0 case Pending(f) => FactorIndex(f) + 1
  }

  function Decode(raw: nat): PendingRestart {
    match raw
    case 1 => Pending(Off)
    case 2 => Pending(X2)
    case 3 => Pending(X4)
    case _ => NotPending
  }

  // ---------- heap resources ----------

  /** A model remembers the generation it was built for; a dynamic WaveNet also has a channel
      count and may be slimmed. */
  datatype Model = Model(id: nat, born: nat, wavenet: Option<(nat, bool)>)
  datatype Resampler = Resampler(id: nat)
  datatype Stream = Stream(id: nat, latency: nat)
  datatype Engine = Engine(id: nat, factor: OversampleFactor, latency: nat)
  datatype Ir = Ir(id: nat, sampleRate: nat, partitionSize: nat, partitions: nat, blockLatency: nat)

  datatype GcItem =
    | ModelItem(model: Model)
    | ResamplerItem(resampler: Resampler)
    | StreamItem(stream: Stream)
    | EngineItem(engine: Engine)
    | IrItem(ir: Ir)

  function ModelItems(m: Option<Model>): multiset<GcItem> {
    if m.Some? then multiset{ModelItem(m.value)} else multiset{}
  }

  function IrItems(ir: Option<Ir>): multiset<GcItem> {
    if ir.Some? then multiset{IrItem(ir.value)} else multiset{}
  }

  // ---------- payloads ----------

  datatype LoadModel = LoadModel(
    generation: nat,
    modelL: Option<Model>,
    modelR: Option<Model>,
    resampler: Resampler,
    stream: Stream,
    modelRate: nat,
    inputMult: real,
    outputMult: real,
    costNs: Option<real>)

  datatype RestoreTxn = RestoreTxn(
    generation: nat,
    model: Option<LoadModel>,
    ir: Option<Option<Ir>>,
    params: Params)

  datatype Payload =
    | ParamsUpdate(params: Params)
    | Load(load: LoadModel)
    | LoadCabIr(pair: Option<Ir>)
    | SetOversample(osL: Engine, osR: Engine)
    | Restore(txn: RestoreTxn)

  function LoadItems(m: LoadModel): multiset<GcItem> {
    ModelItems(m.modelL) + ModelItems(m.modelR)
    + multiset{ResamplerItem(m.resampler), StreamItem(m.stream)}
  }

  function MaybeLoadItems(m: Option<LoadModel>): multiset<GcItem> {
    if m.Some? then LoadItems(m.value) else multiset{}
  }

  function MaybeIrItems(ir: Option<Option<Ir>>): multiset<GcItem> {
    if ir.Some? then IrItems(ir.value) else multiset{}
  }

  /** Every heap resource a payload carries. */
  function Items(p: Payload): multiset<GcItem> {
    match p
    case ParamsUpdate(_) => multiset{}
    case Load(m) => LoadItems(m)
    case LoadCabIr(pair) => IrItems(pair)
    case SetOversample(l, r) => multiset{EngineItem(l), EngineItem(r)}
    case Restore(t) => MaybeLoadItems(t.model) + MaybeIrItems(t.ir)
  }

  /** The model a command brings along. */
  function LoadOf(p: Payload): Option<LoadModel> {
    if p.Load? then Some(p.load) else if p.Restore? then p.txn.model else None
  }

  datatype StructuralKind = ModelKind | CabIrKind | OversampleKind | RestoreKind

  function KindOf(p: Payload): Option<StructuralKind> {
    match p
    case ParamsUpdate(_) => None
    case Load(_) => Some(ModelKind)
    case LoadCabIr(_) => Some(CabIrKind)
    case SetOversample(_, _) => Some(OversampleKind)
    case Restore(_) => Some(RestoreKind)
  }

  predicate IsStructural(p: Payload) { !p.ParamsUpdate? }

  predicate IsCoalescible(k: StructuralKind) { !k.RestoreKind? }

  /** Latest-wins identity: the kind, for the kinds that may be superseded. */
  function CoalesceKey(p: Payload): Option<StructuralKind> {
    if KindOf(p).Some? && IsCoalescible(KindOf(p).value) then KindOf(p) else None
  }

  predicate SameKey(p: Payload, q: Payload) {
    CoalesceKey(p).Some? && CoalesceKey(p) == CoalesceKey(q)
  }

  function ItemsOf(ps: seq<Payload>): multiset<GcItem> {
    if ps == [] then multiset{} else Items(ps[0]) + ItemsOf(ps[1..])
  }

  lemma {:induction false} ItemsOfAppend(a: seq<Payload>, p: Payload)
    ensures ItemsOf(a + [p]) == ItemsOf(a) + Items(p)
  {
    hide Items;
    if a == [] {
      assert a + [p] == [p];
      assert [p][1..] == [];
    } else {
      ItemsOfAppend(a[1..], p);
      assert (a + [p])[0] == a[0] && (a + [p])[1..] == a[1..] + [p];
    }
  }
}
