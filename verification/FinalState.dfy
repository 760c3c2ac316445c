/** What plain installation of a command sequence leaves behind, read off the sequence: the
    last command that writes a part of the state decides it. */
module FinalState {
  import opened Options
  import opened Payloads
  import opened SwapDomain
  import opened Channel
  import opened ChannelMeaning
  import opened SwapFields

  function ParamsOf(p: Payload): Option<Params> {
    if p.ParamsUpdate? then Some(p.params) else if p.Restore? then Some(p.txn.params) else None
  }

  function IrOf(p: Payload): Option<Option<Ir>> {
    if p.LoadCabIr? then Some(p.pair) else if p.Restore? then p.txn.ir else None
  }

  function LastLoad(ps: seq<Payload>): Option<LoadModel> {
    if ps == [] then None
    else if LoadOf(ps[|ps| - 1]).Some? then LoadOf(ps[|ps| - 1]) else LastLoad(ps[..|ps| - 1])
  }

  function LastParams(ps: seq<Payload>): Option<Params> {
    if ps == [] then None
    else if ParamsOf(ps[|ps| - 1]).Some? then ParamsOf(ps[|ps| - 1]) else LastParams(ps[..|ps| - 1])
  }

  /** The last impulse response, or clearing of it, that the live rate accepts. */
  function LastIr(cfg: Config, ps: seq<Payload>): Option<Option<Ir>> {
    if ps == [] then None
    else
      var ir := IrOf(ps[|ps| - 1]);
      if ir.Some? && Accepts(cfg, ir.value) then ir else LastIr(cfg, ps[..|ps| - 1])
  }

  function LastEngines(ps: seq<Payload>): Option<(Engine, Engine)> {
    if ps == [] then None
    else
      var p := ps[|ps| - 1];
      if p.SetOversample? then Some((p.osL, p.osR)) else LastEngines(ps[..|ps| - 1])
  }

  function LastRestore(ps: seq<Payload>): Option<RestoreTxn> {
    if ps == [] then None
    else if ps[|ps| - 1].Restore? then Some(ps[|ps| - 1].txn) else LastRestore(ps[..|ps| - 1])
  }

  predicate HasEngines(o: Oversampling, l: Engine, r: Engine) { o.osL == l && o.osR == r && o.applied == l.factor }

  /** `e` is `d` after the commands `ps`, field by field. */
  predicate IsLastWrites(d: Dsp, ps: seq<Payload>, e: Dsp) {
    && e.cfg == d.cfg
    && (if LastLoad(ps).Some? then IsRunning(e.chain, LastLoad(ps).value) else e.chain == d.chain)
    && (if LastParams(ps).Some? then Reflects(e.control, d.cfg, LastParams(ps).value) else e.control == d.control)
    && e.ir == (if LastIr(d.cfg, ps).Some? then LastIr(d.cfg, ps).value else d.ir)
    && (if LastEngines(ps).Some? then HasEngines(e.os, LastEngines(ps).value.0, LastEngines(ps).value.1)
        else e.os == d.os)
    && e.appliedRestore == (if LastRestore(ps).Some? then LastRestore(ps).value.generation else d.appliedRestore)
  }

  /** What one command writes. */
  predicate Writes(d: Dsp, p: Payload, e: Dsp) {
    && e.cfg == d.cfg
    && (if LoadOf(p).Some? then IsRunning(e.chain, LoadOf(p).value) else e.chain == d.chain)
    && (if ParamsOf(p).Some? then Reflects(e.control, d.cfg, ParamsOf(p).value) else e.control == d.control)
    && e.ir == (if IrOf(p).Some? && Accepts(d.cfg, IrOf(p).value) then IrOf(p).value else d.ir)
    && (if p.SetOversample? then HasEngines(e.os, p.osL, p.osR) else e.os == d.os)
    && e.appliedRestore == (if p.Restore? then p.txn.generation else d.appliedRestore)
  }

  lemma ModelWrites(d: Dsp, m: Option<LoadModel>)
    ensures var e := MaybeModel(d, m);
            e.cfg == d.cfg && e.os == d.os && e.ir == d.ir && e.control == d.control
            && e.appliedRestore == d.appliedRestore
            && if m.Some? then IsRunning(e.chain, m.value) else e.chain == d.chain
  {}

  lemma IrWrites(d: Dsp, ir: Option<Option<Ir>>)
    ensures var e := MaybeIr(d, ir);
            e.cfg == d.cfg && e.os == d.os && e.chain == d.chain && e.control == d.control
            && e.appliedRestore == d.appliedRestore
            && e.ir == if ir.Some? && Accepts(d.cfg, ir.value) then ir.value else d.ir
  {}

  lemma RestoreWrites(d: Dsp, t: RestoreTxn)
    ensures Writes(d, Restore(t), InstallRestore(d, t))
  {
    hide MaybeModel, MaybeIr, ControlOf, ParamsSide, Accepts, IsRunning, Reflects;
    ControlReflects(d.cfg, t.params);
    ModelWrites(d, t.model);
    IrWrites(MaybeModel(d, t.model), t.ir);
  }

  lemma InstallWrites(d: Dsp, p: Payload)
    ensures Writes(d, p, Install(d, p))
  {
    match p {
      case Restore(t) => RestoreWrites(d, t);
      case Load(m) => ModelWrites(d, Some(m));
      case LoadCabIr(pair) => IrWrites(d, Some(pair));
      case ParamsUpdate(q) => ControlReflects(d.cfg, q);
      case SetOversample(_, _) =>
    }
  }

  lemma WritesExtend(d: Dsp, ps: seq<Payload>, p: Payload, e: Dsp, f: Dsp)
    requires IsLastWrites(d, ps, e) && Writes(e, p, f)
    ensures IsLastWrites(d, ps + [p], f)
  {
    hide LoadOf, ParamsOf, IrOf, IsRunning, Reflects, HasEngines, Accepts;
    assert (ps + [p])[..|ps|] == ps && (ps + [p])[|ps|] == p;
  }

  /** Plain installation ends where the last writes say, and the latencies follow from what is
      then installed. */
  lemma {:induction false} InstallationIsLastWrites(d: Dsp, ps: seq<Payload>)
    ensures IsLastWrites(d, ps, InstallAll(d, ps))
    ensures LatencyConsistent(d) ==> LatencyConsistent(InstallAll(d, ps))
    decreases |ps|
  {
    hide IsLastWrites, Install, Writes, LatencyConsistent;
    if ps == [] {
      NothingWritten(d);
    } else {
      var n := |ps| - 1;
      var e := InstallAll(d, ps[..n]);
      InstallationIsLastWrites(d, ps[..n]);
      LastInstalled(d, ps[..n], ps[n]);
      assert ps[..n] + [ps[n]] == ps;
      InstallWrites(e, ps[n]);
      WritesExtend(d, ps[..n], ps[n], e, Install(e, ps[n]));
      if LatencyConsistent(e) { InstallKeepsLatency(e, ps[n]); }
    }
  }

  lemma NothingWritten(d: Dsp)
    ensures IsLastWrites(d, [], d)
  {}

  /** The whole channel: a run that starts and ends with nothing outstanding leaves exactly the
      last model, impulse response, engines, parameters and restore the main thread asked for,
      however it was scheduled, with consistent latencies. */
  lemma DrainedRunEndsAtLastWrites(c: Chan, acts: seq<Action>)
    requires AckInv(c) && LatencyConsistent(c.dsp) && Runs(c, acts) && CommandRun(c, acts)
    requires Outstanding(c) == [] && Outstanding(After(c, acts)) == []
    ensures IsLastWrites(c.dsp, AskedAll(acts), After(c, acts).dsp) && LatencyConsistent(After(c, acts).dsp)
  {
    DrainedRunIsPlainInstallation(c, acts);
    InstallationIsLastWrites(c.dsp, AskedAll(acts));
    SameWrites(c.dsp, AskedAll(acts), InstallAll(c.dsp, AskedAll(acts)), After(c, acts).dsp);
    hide InstallAll, After, Runs, AckInv;
  }

  /** There is only one state all commands of which have been written, up to the latency, the retired
      resources and the side. */
  lemma LastWritesOne(d: Dsp, ps: seq<Payload>, e: Dsp, f: Dsp)
    requires IsLastWrites(d, ps, e) && IsLastWrites(d, ps, f)
    ensures (e.cfg, e.chain, e.os, e.ir, e.control) == (f.cfg, f.chain, f.os, f.ir, f.control)
    ensures e.appliedRestore == f.appliedRestore
  {
    hide LastLoad, LastParams, LastIr, LastEngines, LastRestore, Reflects;
    if LastParams(ps).Some? { ReflectsOne(e.control, f.control, d.cfg, LastParams(ps).value); }
  }

  lemma SameWrites(d: Dsp, ps: seq<Payload>, e: Dsp, f: Dsp)
    requires Same(e, f)
    ensures IsLastWrites(d, ps, e) == IsLastWrites(d, ps, f) && LatencyConsistent(e) == LatencyConsistent(f)
  {}
}
