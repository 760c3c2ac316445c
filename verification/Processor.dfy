/** The audio-thread processor as the code has it: state replaced in place, one assignment at
    a time, by the cold handlers of both rings.  The fields are grouped into the records of
    `SwapDomain`, against whose functions every method is proved. */
module Processor {
  import opened Options
  import opened Payloads
  import opened SwapDomain
  import opened Rings
  import Channel

  class Processor {
    const cfg: Config
    var chain: Chain
    var os: Oversampling
    var cabsim: Option<Ir>
    var control: Control
    var latency: Latency
    var side: Side
    var lastApplied: nat
    var retired: multiset<GcItem>
    // the drain
    const lastAck: Counter
    var resolved: nat
    var recovered: seq<Payload>
    var staleDiscarded: nat

    ghost function View(): Dsp
      reads this
    {
      Dsp(cfg, chain, os, cabsim, control, latency, lastApplied, retired, side)
    }

    constructor (d: Dsp, lastAck: Counter, recovered: seq<Payload>)
      ensures View() == d && this.lastAck == lastAck
      ensures resolved == 0 && this.recovered == recovered && staleDiscarded == 0
    {
      cfg, chain, os, cabsim, control, latency := d.cfg, d.chain, d.os, d.ir, d.control, d.latency;
      side, lastApplied, retired := d.side, d.appliedRestore, d.retired;
      this.lastAck, this.recovered := lastAck, recovered;
      resolved, staleDiscarded := 0, 0;
    }

    // ---------- latency ----------

    /** Adds the three contributions one at a time in 32 bits, and re-aligns the dry path. */
    method RecomputeEffectiveLatency()
      modifies `latency
      ensures View() == Recompute(old(View()))
    {
      hide Wrap;
      var l := Wrap(chain.stream.latency);
      l := Wrap(l + Wrap(os.osL.latency));
      if cabsim.Some? {
        l := Wrap(l + Wrap(cabsim.value.partitionSize));
      }
      SumWraps(chain.stream.latency, os.osL.latency, if cabsim.Some? then cabsim.value.partitionSize else 0);
      latency := latency.(cached := l);
      latency := latency.(dryDelay := if l <= cfg.dryCapacity then l else cfg.dryCapacity);
    }

    method CheckTailChanged()
      modifies `side
      ensures View() == CheckTail(old(View()))
    {
      var tail := SatAdd(latency.cached, latency.irTail);
      if tail != side.lastTail {
        side := side.(lastTail := tail);
        side := side.(tailCalls := side.tailCalls + [tail]);
      }
    }

    /** The end of `process_events`. */
    method PublishLatency()
      modifies `side
      ensures View() == FinishCallback(old(View()))
    {
      if latency.cached != side.currentLatency {
        side := side.(currentLatency := latency.cached);
      }
      CheckTailChanged();
    }

    // ---------- parameters ----------

    method ApplyOversample(f: OversampleFactor)
      modifies `side
      ensures side == OversamplePolicy(old(side), cfg.bufferSize, f)
    {
      if cfg.bufferSize > 0 {
        if Decode(side.pendingRestart) != Pending(f) {
          side := side.(pendingRestart := Encode(Pending(f)));
        }
      } else {
        side := side.(rebuildRequest := Some(f));
      }
    }

    /** `set_oversample`, from a host event. */
    method SetOversample(f: OversampleFactor)
      modifies `control, `side
      ensures View() == HostRequest(old(View()), f)
    {
      if f != control.params.oversample {
        control := control.(params := control.params.(oversample := f));
        side := side.(oversampleCell := f);
        ApplyOversample(f);
      }
    }

    /** `set_adaptive_compute`, from a host event. */
    method SetAdaptiveCompute(m: AdaptiveMode)
      modifies `control, `side
      ensures View() == Adjusted(old(View()), HostAdaptive(m))
    {
      control := control.(params := control.params.(adaptive := m));
      side := side.(adaptiveCell := m);
      side := side.(adaptive := side.adaptive.(mode := m));
    }

    method SyncAdaptiveComputeFromGui()
      modifies `control, `side
      ensures View() == AdaptiveSynced(old(View()))
    {
      var shared := side.adaptiveCell;
      if shared != control.params.adaptive || shared != side.adaptive.mode {
        control := control.(params := control.params.(adaptive := shared));
        side := side.(adaptive := side.adaptive.(mode := shared));
      }
    }

    method SyncOversampleFromGui()
      modifies `control, `side
      ensures View() == RequestOversample(old(View()), old(side.oversampleCell))
    {
      var shared := side.oversampleCell;
      if shared != control.params.oversample {
        control := control.(params := control.params.(oversample := shared));
        ApplyOversample(shared);
      }
    }

    method SyncParamsFromGui()
      modifies `control, `side
      ensures View() == GuiSynced(old(View()))
    {
      hide RequestOversample;
      SyncAdaptiveComputeFromGui();
      SyncOversampleFromGui();
    }

    /** The end of a callback's event handling: the render mode the host last set. */
    method HonorRenderMode(offline: bool)
      modifies `control, `side
      ensures View() == RenderHonored(old(View()), offline)
    {
      if offline != side.offline {
        side := side.(offline := offline);
        if offline {
          side := side.(realtimeActivation := control.params.activation);
          side := side.(adaptive := side.adaptive.(mode := ComputeOff));
          control := control.(params := control.params.(activation := Standard));
          side := side.(precision := Standard);
        } else {
          side := side.(adaptive := side.adaptive.(mode := side.adaptiveCell));
          control := control.(params := control.params.(activation := side.realtimeActivation));
          side := side.(precision := side.realtimeActivation);
        }
      }
      if offline && side.adaptive.mode != ComputeOff {
        side := side.(adaptive := side.adaptive.(mode := ComputeOff));
      }
    }

    method ApplyParamsFromSpsc(p: Params)
      modifies `control, `side
      ensures View() == ApplyParams(old(View()), p)
    {
      hide Clamp, ParamsSide;
      var q := p.(inputGain := Clamp(p.inputGain, GAIN_MIN_DB, GAIN_MAX_DB));
      q := q.(outputGain := Clamp(p.outputGain, GAIN_MIN_DB, GAIN_MAX_DB));
      q := q.(gate := Clamp(p.gate, -90.0, -40.0));
      var was := control.params;
      control := control.(params := q);
      control := control.(targetIn := q.inputGain + cfg.modInput);
      control := control.(targetOut := q.outputGain + cfg.modOutput);
      PassOnChanges(was);
    }

    /** The side effects of the parameters that changed. */
    method PassOnChanges(was: Params)
      modifies `side
      ensures side == ParamsSide(old(side), cfg.bufferSize, was, control.params)
    {
      hide OversamplePolicy, Followed;
      var q := control.params;
      PassOnAdaptive(was);
      if was.oversample != q.oversample {
        ApplyOversample(q.oversample);
      }
      if was.activation != q.activation {
        side := side.(precision := q.activation);
      }
      if was.gate != q.gate {
        side := side.(gateDirty := true);
      }
    }

    method PassOnAdaptive(was: Params)
      modifies `side
      ensures side == old(side).(adaptive := Followed(old(side.adaptive), was, control.params))
    {
      if was.adaptive != control.params.adaptive {
        side := side.(adaptive := side.adaptive.(mode := control.params.adaptive));
      }
      if was.slim != control.params.slim {
        side := side.(adaptive := side.adaptive.(slim := control.params.slim));
      }
    }

    // ---------- structural commands ----------

    method RetireModel(m: Option<Model>)
      modifies `retired
      ensures retired == old(retired) + ModelItems(m)
    {
      if m.Some? { retired := retired + multiset{ModelItem(m.value)}; }
    }

    method RetireIr(ir: Option<Ir>)
      modifies `retired
      ensures retired == old(retired) + IrItems(ir)
    {
      if ir.Some? { retired := retired + multiset{IrItem(ir.value)}; }
    }

    /** The two models, each old one handed to the collector. */
    method SwapModels(m: LoadModel)
      modifies `chain, `retired
      ensures chain == old(chain).(generation := m.generation, modelL := m.modelL, modelR := m.modelR)
      ensures retired == old(retired) + ModelItems(old(chain.modelL)) + ModelItems(old(chain.modelR))
    {
      hide ModelItems;
      chain := chain.(generation := m.generation);
      var oldL := chain.modelL;
      chain := chain.(modelL := m.modelL);
      RetireModel(oldL);
      var oldR := chain.modelR;
      chain := chain.(modelR := m.modelR);
      RetireModel(oldR);
    }

    method SwapRates(m: LoadModel)
      modifies `chain, `retired
      ensures chain == old(chain).(resampler := m.resampler, stream := m.stream)
      ensures retired == old(retired) + multiset{ResamplerItem(old(chain.resampler))}
                         + multiset{StreamItem(old(chain.stream))}
    {
      var oldResampler := chain.resampler;
      chain := chain.(resampler := m.resampler);
      retired := retired + multiset{ResamplerItem(oldResampler)};
      var oldStream := chain.stream;
      chain := chain.(stream := m.stream);
      retired := retired + multiset{StreamItem(oldStream)};
    }

    method ColdLoadModel(m: LoadModel)
      modifies `chain, `latency, `side, `retired
      ensures View() == InstallModel(old(View()), m)
    {
      hide ModelItems, ChainItems, Recompute;
      SwapModels(m);
      chain := chain.(prewarmPending := false, zeroBudgetCount := 0, prewarmCost := m.costNs);
      SwapRates(m);
      latency := latency.(stream := chain.stream.latency);
      chain := chain.(inputMult := m.inputMult, outputMult := m.outputMult);
      InformController();
      RetiredChain(old(retired), old(chain));
      RecomputeEffectiveLatency();
    }

    /** A dynamic left model tells the adaptive controller its channels. */
    method InformController()
      modifies `side
      ensures side == Informed(old(side), chain.modelL)
    {
      if chain.modelL.Some? && chain.modelL.value.wavenet.Some? {
        side := side.(adaptive := side.adaptive.(fullChannels := chain.modelL.value.wavenet));
      }
    }

    method ColdLoadCabsim(pair: Option<Ir>)
      modifies `cabsim, `latency, `side, `retired
      ensures View() == InstallIr(old(View()), pair)
    {
      hide IrItems, Wrap;
      if pair.Some? && cfg.hostRate != 0 && pair.value.sampleRate != cfg.hostRate {
        side := side.(contractViolation := true);
        RetireIr(pair);
        return;
      }
      var oldPair := cabsim;
      cabsim := pair;
      RetireIr(oldPair);
      latency := latency.(ir := if cabsim.Some? then Wrap(cabsim.value.partitionSize) else 0);
      latency := latency.(
        irTail := if cabsim.Some? then Wrap(cabsim.value.partitions * cabsim.value.blockLatency) else 0);
      RecomputeEffectiveLatency();
      CheckTailChanged();
    }

    method ColdLoadOs(l: Engine, r: Engine)
      modifies `os, `latency, `retired
      ensures View() == InstallOversample(old(View()), l, r)
    {
      os := os.(applied := l.factor);
      var oldL, oldR := os.osL, os.osR;
      os := os.(osL := l, osR := r);
      retired := retired + multiset{EngineItem(oldL)};
      retired := retired + multiset{EngineItem(oldR)};
      RetiredPair(old(retired), oldL, oldR);
      RecomputeEffectiveLatency();
    }

    method ColdApplyRestoreTxn(t: RestoreTxn)
      modifies `chain, `cabsim, `control, `latency, `side, `lastApplied, `retired
      ensures View() == InstallRestore(old(View()), t)
    {
      hide InstallModel, InstallIr, ApplyParams;
      if t.model.Some? {
        ColdLoadModel(t.model.value);
      }
      if t.ir.Some? {
        ColdLoadCabsim(t.ir.value);
      }
      ApplyParamsFromSpsc(t.params);
      lastApplied := t.generation;
    }

    // ---------- the command hooks ----------

    method InstallCommand(p: Payload)
      modifies `chain, `os, `cabsim, `control, `latency, `side, `lastApplied, `retired, `resolved
      ensures View() == Install(old(View()), p) && resolved == old(resolved) + 1
    {
      hide InstallModel, InstallIr, ApplyParams, InstallOversample, InstallRestore;
      resolved := resolved + 1;
      match p
      case ParamsUpdate(q) => ApplyParamsFromSpsc(q);
      case Load(m) => ColdLoadModel(m);
      case LoadCabIr(pair) => ColdLoadCabsim(pair);
      case SetOversample(l, r) => ColdLoadOs(l, r);
      case Restore(t) => ColdApplyRestoreTxn(t);
    }

    /** The drain discards coalescible commands only, so the remaining arm is never taken. */
    method DiscardCommand(p: Payload)
      requires CoalesceKey(p).Some?
      modifies `retired, `resolved
      ensures View() == Discard(old(View()), p) && resolved == old(resolved) + 1
    {
      hide ModelItems, LoadItems, IrItems;
      resolved := resolved + 1;
      match p
      case Load(m) =>
        RetireModel(m.modelL);
        RetireModel(m.modelR);
        retired := retired + multiset{ResamplerItem(m.resampler)};
        retired := retired + multiset{StreamItem(m.stream)};
        RetiredLoad(old(retired), m);
      case LoadCabIr(pair) => RetireIr(pair);
      case SetOversample(l, r) =>
        retired := retired + multiset{EngineItem(l)};
        retired := retired + multiset{EngineItem(r)};
        RetiredPair(old(retired), l, r);
      case _ =>
    }

    method AfterDrain()
      modifies lastAck
      ensures lastAck.value == old(lastAck.value) + resolved
    {
      if resolved == 0 { return; }
      lastAck.value := lastAck.value + resolved;
    }

    /** Replays what failed activations staged.  The handler is a temporary of its own, so
        nothing it counts reaches the acknowledgment: those commands were acknowledged when
        they were recovered. */
    method ReplayRecoveredCommands()
      modifies this
      ensures View() == InstallAll(old(View()), old(recovered)) && recovered == []
      ensures resolved == old(resolved) && staleDiscarded == old(staleDiscarded)
      ensures lastAck.value == old(lastAck.value)
    {
      hide Install;
      if recovered == [] { return; }
      var commands := recovered;
      recovered := [];
      var drainCount := resolved;
      var i := 0;
      while i < |commands|
        invariant 0 <= i <= |commands|
        invariant View() == InstallAll(old(View()), commands[..i])
        invariant recovered == [] && staleDiscarded == old(staleDiscarded)
      {
        InstallCommand(commands[i]);
        InstalledSoFar(old(View()), commands, i);
        i := i + 1;
      }
      assert commands[..i] == commands;
      resolved := drainCount;
    }

    // ---------- the slimmable hooks ----------

    method InstallRebuilt(r: Channel.Rebuild)
      modifies `chain, `retired
      ensures View() == Channel.InstallRebuild(old(View()), r)
    {
      var oldL := chain.modelL;
      chain := chain.(modelL := Some(r.model));
      RetireModel(oldL);
    }

    method DiscardRebuilt(r: Channel.Rebuild)
      modifies `retired, `staleDiscarded
      ensures View() == Channel.RetireRebuild(old(View()), r)
      ensures staleDiscarded == old(staleDiscarded) + (if r.generation != chain.generation then 1 else 0)
    {
      if r.generation != chain.generation {
        staleDiscarded := staleDiscarded + 1;
      }
      retired := retired + multiset{ModelItem(r.model)};
    }
  }

  lemma SumWraps(a: nat, b: nat, c: nat)
    ensures Wrap(Wrap(a) + Wrap(b)) == Wrap(a + b)
    ensures Wrap(Wrap(a + b) + Wrap(c)) == Wrap(a + b + Wrap(c))
  {
    hide Wrap;
    WrapsOnce(a, Wrap(b));
    WrapsOnce(b, a);
    WrapsOnce(a + b, Wrap(c));
  }

  lemma WrapsOnce(a: nat, b: nat)
    ensures Wrap(Wrap(a) + b) == Wrap(a + b)
  {}

  lemma RetiredChain(before: multiset<GcItem>, c: Chain)
    ensures before + ModelItems(c.modelL) + ModelItems(c.modelR) + multiset{ResamplerItem(c.resampler)}
            + multiset{StreamItem(c.stream)} == before + ChainItems(c)
  {}

  lemma RetiredPair(before: multiset<GcItem>, l: Engine, r: Engine)
    ensures before + multiset{EngineItem(l)} + multiset{EngineItem(r)} == before + multiset{EngineItem(l), EngineItem(r)}
  {}

  lemma RetiredLoad(before: multiset<GcItem>, m: LoadModel)
    ensures before + ModelItems(m.modelL) + ModelItems(m.modelR) + multiset{ResamplerItem(m.resampler)}
            + multiset{StreamItem(m.stream)} == before + LoadItems(m)
  {}

  lemma InstalledSoFar(d: Dsp, ps: seq<Payload>, i: nat)
    requires i < |ps|
    ensures InstallAll(d, ps[..i + 1]) == Install(InstallAll(d, ps[..i]), ps[i])
  {
    hide Install;
    InstallAllAppend(d, ps[..i], [ps[i]]);
    assert ps[..i + 1] == ps[..i] + [ps[i]];
    var x := InstallAll(d, ps[..i]);
    assert [ps[i]][1..] == [];
    assert InstallAll(x, [ps[i]]) == InstallAll(Install(x, ps[i]), []);
  }
}
