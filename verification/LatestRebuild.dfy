/** The slimmable rebuilds: while no model command comes in between, the newest rebuild of the running
    model decides what runs, however the ring is drained. */
module LatestRebuild {
  import opened Options
  import opened Payloads
  import opened SwapDomain
  import opened Channel

  /** Rebuilds sent and not yet installed or discarded, oldest first. */
  function InFlight(s: Slim): seq<Rebuild> {
    (if s.slot.Some? then [s.slot.value] else []) + s.ring
  }

  /** The left model once the rebuilds `rs` have come in over the generation `g`, one by one. */
  function LeftAfter(left: Option<Model>, g: nat, rs: seq<Rebuild>): Option<Model>
    decreases |rs|
  {
    if rs == [] then left
    else LeftAfter(if rs[0].generation == g then Some(rs[0].model) else left, g, rs[1..])
  }

  function FinalLeft(c: Chan): Option<Model> {
    LeftAfter(c.dsp.chain.modelL, c.dsp.chain.generation, InFlight(c.slim))
  }

  /** This step neither installs a model command nor gives up the rebuild in hand. */
  predicate KeepsModel(c: Chan, a: Action) {
    !a.Replay? && !a.Deactivate? && (a.InstallSlot? && !c.rt.slot.Empty? ==> LoadOf(c.rt.slot.p).None?)
  }

  predicate KeepsModelRun(c: Chan, acts: seq<Action>)
    requires Runs(c, acts)
    decreases |acts|
  {
    acts == [] || (KeepsModel(c, acts[0]) && KeepsModelRun(Apply(c, acts[0]), acts[1..]))
  }

  /** The last rebuild of the generation `g` sent along the run. */
  function LastSent(acts: seq<Action>, g: nat): Option<Model>
    decreases |acts|
  {
    if acts == [] then None
    else
      var n := |acts| - 1;
      if acts[n].SlimSend? && acts[n].rebuild.generation == g then Some(acts[n].rebuild.model) else LastSent(acts[..n], g)
  }

  lemma {:induction false} LeftAfterLast(left: Option<Model>, g: nat, rs: seq<Rebuild>, r: Rebuild)
    ensures LeftAfter(left, g, rs + [r]) == if r.generation == g then Some(r.model) else LeftAfter(left, g, rs)
    decreases |rs|
  {
    if rs == [] {
      assert rs + [r] == [r] && [r][1..] == [];
    } else {
      assert (rs + [r])[0] == rs[0] && (rs + [r])[1..] == rs[1..] + [r];
      LeftAfterLast(if rs[0].generation == g then Some(rs[0].model) else left, g, rs[1..], r);
    }
  }

  /** Two of one generation in a row amount to the second. */
  lemma SecondWins(left: Option<Model>, g: nat, r: Rebuild, rs: seq<Rebuild>)
    requires rs != [] && rs[0].generation == r.generation
    ensures LeftAfter(left, g, [r] + rs) == LeftAfter(left, g, rs)
  {
    assert ([r] + rs)[1..] == rs;
  }

  lemma FirstComesIn(left: Option<Model>, g: nat, r: Rebuild, rs: seq<Rebuild>)
    ensures LeftAfter(left, g, [r] + rs) == LeftAfter(if r.generation == g then Some(r.model) else left, g, rs)
  {
    assert ([r] + rs)[1..] == rs;
  }

  lemma SlimLeft(c: Chan, a: Action)
    requires Enabled(c, a) && (a.SlimPop? || a.SlimInstall? || a.SlimStale? || a.SlimSupersede?)
    ensures FinalLeft(Apply(c, a)) == FinalLeft(c) && Apply(c, a).dsp.chain.generation == c.dsp.chain.generation
  {
    hide LeftAfter;
    var d := Apply(c, a);
    var left, g := c.dsp.chain.modelL, c.dsp.chain.generation;
    match a {
      case SlimPop => assert InFlight(d.slim) == InFlight(c.slim);
      case SlimInstall => FirstComesIn(left, g, c.slim.slot.value, c.slim.ring); assert InFlight(d.slim) == c.slim.ring;
      case SlimStale => FirstComesIn(left, g, c.slim.slot.value, c.slim.ring); assert InFlight(d.slim) == c.slim.ring;
      case SlimSupersede => SecondWins(left, g, c.slim.slot.value, c.slim.ring); assert InFlight(d.slim) == c.slim.ring;
    }
  }

  lemma SendLeft(c: Chan, r: Rebuild)
    requires Enabled(c, SlimSend(r))
    ensures FinalLeft(Apply(c, SlimSend(r)))
            == if r.generation == c.dsp.chain.generation then Some(r.model) else FinalLeft(c)
  {
    hide LeftAfter;
    assert InFlight(Apply(c, SlimSend(r)).slim) == InFlight(c.slim) + [r];
    LeftAfterLast(c.dsp.chain.modelL, c.dsp.chain.generation, InFlight(c.slim), r);
  }

  lemma HandlersLeaveChain(d: Dsp)
    ensures FinishCallback(d).chain == d.chain
    ensures forall e :: Adjusted(d, e).chain == d.chain
    ensures forall p :: Discard(d, p).chain == d.chain
    ensures forall p: Payload :: LoadOf(p).None? ==> Install(d, p).chain == d.chain
  {
    forall e ensures Adjusted(d, e).chain == d.chain { AdjustedKeeps(d, e); }
    forall p: Payload | LoadOf(p).None? ensures Install(d, p).chain == d.chain { NoLoadNoChange(d, p); }
  }

  lemma NoLoadNoChange(d: Dsp, p: Payload)
    requires LoadOf(p).None?
    ensures Install(d, p).chain == d.chain
  {
    if p.Restore? { assert MaybeIr(d, p.txn.ir).chain == d.chain; }
  }

  lemma OtherLeft(c: Chan, a: Action)
    requires Enabled(c, a) && KeepsModel(c, a)
    requires !a.SlimSend? && !a.SlimPop? && !a.SlimInstall? && !a.SlimStale? && !a.SlimSupersede?
    ensures Apply(c, a).slim == c.slim && Apply(c, a).dsp.chain == c.dsp.chain
  {
    hide Install, InstallAll, Discard, FinishCallback, Adjusted, Freed, SlotItems, RebuildItems, PendingItems, ItemsOf;
    HandlersLeaveChain(c.dsp);
  }

  lemma StepLeft(c: Chan, a: Action)
    requires Enabled(c, a) && KeepsModel(c, a)
    ensures Apply(c, a).dsp.chain.generation == c.dsp.chain.generation
    ensures FinalLeft(Apply(c, a))
            == if a.SlimSend? && a.rebuild.generation == c.dsp.chain.generation then Some(a.rebuild.model) else FinalLeft(c)
  {
    hide Enabled, KeepsModel, LeftAfter, Apply;
    match a {
      case SlimSend(r) => SendLeft(c, r); SendKeepsChain(c, r);
      case SlimPop => SlimLeft(c, a);
      case SlimInstall => SlimLeft(c, a);
      case SlimStale => SlimLeft(c, a);
      case SlimSupersede => SlimLeft(c, a);
      case _ => OtherLeft(c, a);
    }
  }

  lemma SendKeepsChain(c: Chan, r: Rebuild)
    requires Enabled(c, SlimSend(r))
    ensures Apply(c, SlimSend(r)).dsp == c.dsp
  {}

  lemma {:induction false} LastSentFirst(a: Action, acts: seq<Action>, g: nat)
    ensures LastSent([a] + acts, g)
            == if LastSent(acts, g).Some? then LastSent(acts, g)
               else if a.SlimSend? && a.rebuild.generation == g then Some(a.rebuild.model) else None
    decreases |acts|
  {
    if acts == [] {
      assert [a] + acts == [a] && [a][..0] == [];
    } else {
      var n := |acts| - 1;
      assert ([a] + acts)[..n + 1] == [a] + acts[..n];
      LastSentFirst(a, acts[..n], g);
    }
  }

  /** Over every run that installs no model command and gives up no rebuild by deactivating: what the
      rebuilds in flight will leave as the left model is the last one sent for the running
      generation, or what it was. */
  lemma {:induction false} LeftRun(c: Chan, acts: seq<Action>)
    requires Runs(c, acts) && KeepsModelRun(c, acts)
    ensures After(c, acts).dsp.chain.generation == c.dsp.chain.generation
    ensures var last := LastSent(acts, c.dsp.chain.generation);
            FinalLeft(After(c, acts)) == if last.Some? then last else FinalLeft(c)
    decreases |acts|
  {
    hide Enabled, Apply, KeepsModel, FinalLeft, LastSent;
    if acts != [] {
      StepLeft(c, acts[0]);
      LeftRun(Apply(c, acts[0]), acts[1..]);
      assert acts == [acts[0]] + acts[1..];
      LastSentFirst(acts[0], acts[1..], c.dsp.chain.generation);
    } else {
      NothingSent(c.dsp.chain.generation);
    }
  }

  lemma NothingSent(g: nat)
    ensures LastSent([], g).None?
  {}

  /** Latest wins among the rebuilds of the running model: once none is in flight, the left model is
      the last rebuild sent for it, and one sent for another generation never runs. */
  lemma NewestRebuildRuns(c: Chan, acts: seq<Action>)
    requires Runs(c, acts) && KeepsModelRun(c, acts)
    requires InFlight(c.slim) == [] && InFlight(After(c, acts).slim) == []
    ensures var last := LastSent(acts, c.dsp.chain.generation);
            After(c, acts).dsp.chain.modelL == if last.Some? then last else c.dsp.chain.modelL
  {
    LeftRun(c, acts);
  }
}
