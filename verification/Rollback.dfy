/** Rollback of a failed activation: every extracted resource goes back, and the
    command ring is emptied without losing a command. */
module Rollback {
  import opened Options
  import opened Payloads
  import opened Rings

  /** A model waiting for the next activation.  The resampler and the stream of the
      command are rebuilt later, so they are not kept. */
  datatype PendingModel = PendingModel(
    generation: nat,
    modelL: Option<Model>,
    modelR: Option<Model>,
    modelRate: nat,
    inputMult: real,
    outputMult: real)

  // ---------- specification ----------

  function Deferred(m: LoadModel): PendingModel {
    PendingModel(m.generation, m.modelL, m.modelR, m.modelRate, m.inputMult, m.outputMult)
  }

  /** The newer of the two; the one already there wins a tie. */
  function Newer(best: Option<PendingModel>, candidate: PendingModel): Option<PendingModel> {
    if best.None? || candidate.generation > best.value.generation then Some(candidate) else best
  }

  function NewestModel(ring: seq<Payload>): Option<PendingModel> {
    if ring == [] then None
    else
      var rest, last := NewestModel(ring[..|ring| - 1]), ring[|ring| - 1];
      if last.Load? then Newer(rest, Deferred(last.load)) else rest
  }

  function NonModels(ring: seq<Payload>): seq<Payload> {
    if ring == [] then []
    else
      var rest, last := NonModels(ring[..|ring| - 1]), ring[|ring| - 1];
      if last.Load? then rest else rest + [last]
  }

  /** The pending-model slot after a rollback. */
  function SlotAfter(slot: Option<PendingModel>, ring: seq<Payload>): Option<PendingModel> {
    if NewestModel(ring).Some? then Newer(slot, NewestModel(ring).value) else slot
  }

  // ---------- the code ----------

  class ColdShared {
    var paramRx: Ring?
    var gcTx: Option<nat>             // identities of the other channel ends
    var slimmableRx: Option<nat>
    var deactivatedDsp: Option<nat>
    var pendingRestart: nat           // raw
    var recovered: seq<Payload>
    var pendingModel: Option<PendingModel>
    var lastAck: nat

    constructor ()
      ensures recovered == [] && pendingModel.None? && lastAck == 0 && pendingRestart == 0
    {
      paramRx, gcTx, slimmableRx, deactivatedDsp := null, None, None, None;
      pendingRestart, recovered, pendingModel, lastAck := 0, [], None, 0;
    }
  }

  class ActivateRollbackGuard {
    const shared: ColdShared
    var paramRx: Ring?
    var gcTx: Option<nat>
    var slimmableRx: Option<nat>
    var deactivated: Option<nat>
    var pendingRestart: Option<PendingRestart>

    constructor (shared: ColdShared)
      ensures this.shared == shared && paramRx == null && gcTx.None? && slimmableRx.None?
      ensures deactivated.None? && pendingRestart.None?
    {
      this.shared := shared;
      paramRx, gcTx, slimmableRx, deactivated, pendingRestart := null, None, None, None, None;
    }

    /** Success: the channel ends move out.  The error path reports the first missing one
        and leaves what it has not taken in the guard. */
    method Defuse() returns (rx: Ring?, tx: Option<nat>, slim: Option<nat>)
      modifies this
      ensures rx == old(paramRx)
      ensures tx == (if rx == null then None else old(gcTx))
      ensures slim == (if rx == null || tx.None? then None else old(slimmableRx))
      ensures paramRx == null && gcTx == (if rx == null then old(gcTx) else None)
      ensures slimmableRx == (if rx == null || tx.None? then old(slimmableRx) else None)
      ensures slim.Some? ==> deactivated.None? && pendingRestart.None?
      ensures slim.None? ==> deactivated == old(deactivated) && pendingRestart == old(pendingRestart)
    {
      rx, tx, slim := paramRx, None, None;
      paramRx := null;
      if rx == null { return; }
      tx := gcTx;
      gcTx := None;
      if tx.None? { return; }
      slim := slimmableRx;
      slimmableRx := None;
      if slim.None? { return; }
      deactivated := None;
      pendingRestart := None;
    }

    /** Drop after a failure.  The ring is recovered in one pass: other commands are staged
        in ring order in front of what is already staged, the newest model is kept, and the
        acknowledgment covers everything taken out. */
    method Drop()
      requires paramRx != null ==> paramRx as object != shared
      modifies this, shared, paramRx
      ensures shared.pendingRestart
              == (if old(pendingRestart).Some? then Encode(old(pendingRestart).value) else old(shared.pendingRestart))
      ensures shared.gcTx == (if old(gcTx).Some? then old(gcTx) else old(shared.gcTx))
      ensures shared.slimmableRx == (if old(slimmableRx).Some? then old(slimmableRx) else old(shared.slimmableRx))
      ensures shared.deactivatedDsp
              == (if old(deactivated).Some? then old(deactivated) else old(shared.deactivatedDsp))
      ensures paramRx == null && gcTx.None? && slimmableRx.None? && deactivated.None? && pendingRestart.None?
      ensures old(paramRx) == null ==>
                shared.paramRx == old(shared.paramRx) && shared.recovered == old(shared.recovered)
                && shared.pendingModel == old(shared.pendingModel) && shared.lastAck == old(shared.lastAck)
      ensures old(paramRx) != null ==>
                shared.paramRx == old(paramRx) && shared.paramRx.items == []
                && shared.recovered == NonModels(old(paramRx.items)) + old(shared.recovered)
                && shared.pendingModel == SlotAfter(old(shared.pendingModel), old(paramRx.items))
                && shared.lastAck == old(shared.lastAck) + |old(paramRx.items)|
    {
      hide NonModels, NewestModel, SlotAfter, Encode;
      ReturnEnds();
      if paramRx != null {
        var rx := paramRx;
        paramRx := null;
        RecoverRing(rx);
        shared.paramRx := rx;
      }
      if deactivated.Some? {
        shared.deactivatedDsp := deactivated;
        deactivated := None;
      }
    }

    /** The restart request and the two ends whose rings stay as they are. */
    method ReturnEnds()
      modifies this`pendingRestart, this`slimmableRx, this`gcTx
      modifies shared`pendingRestart, shared`slimmableRx, shared`gcTx
      ensures pendingRestart.None? && slimmableRx.None? && gcTx.None?
      ensures shared.pendingRestart
              == (if old(pendingRestart).Some? then Encode(old(pendingRestart).value) else old(shared.pendingRestart))
      ensures shared.gcTx == (if old(gcTx).Some? then old(gcTx) else old(shared.gcTx))
      ensures shared.slimmableRx == (if old(slimmableRx).Some? then old(slimmableRx) else old(shared.slimmableRx))
    {
      hide Encode;
      if pendingRestart.Some? {
        shared.pendingRestart := Encode(pendingRestart.value);
        pendingRestart := None;
      }
      if slimmableRx.Some? {
        shared.slimmableRx := slimmableRx;
        slimmableRx := None;
      }
      if gcTx.Some? {
        shared.gcTx := gcTx;
        gcTx := None;
      }
    }

    method RecoverRing(rx: Ring)
      requires rx as object != shared && rx as object != this
      modifies shared, rx
      ensures rx.items == []
      ensures shared.recovered == NonModels(old(rx.items)) + old(shared.recovered)
      ensures shared.pendingModel == SlotAfter(old(shared.pendingModel), old(rx.items))
      ensures shared.lastAck == old(shared.lastAck) + |old(rx.items)|
      ensures shared.paramRx == old(shared.paramRx) && shared.gcTx == old(shared.gcTx)
      ensures shared.slimmableRx == old(shared.slimmableRx) && shared.deactivatedDsp == old(shared.deactivatedDsp)
      ensures shared.pendingRestart == old(shared.pendingRestart)
    {
      var newest: Option<PendingModel> := None;
      var drained := 0;
      var newer := shared.recovered;
      var staged: seq<Payload> := [];
      ghost var all := rx.items;
      while rx.items != []
        invariant drained <= |all| && rx.items == all[drained..]
        invariant newest == NewestModel(all[..drained]) && staged == NonModels(all[..drained])
        invariant unchanged(shared)
        decreases |rx.items|
      {
        var popped := rx.Pop();
        var payload := popped.value;
        assert payload == all[drained] && all[..drained + 1][..drained] == all[..drained];
        drained := drained + 1;
        if !payload.Load? {
          staged := staged + [payload];
        } else {
          newest := Newer(newest, Deferred(payload.load));
        }
      }
      assert all[..drained] == all;
      shared.recovered := staged + newer;
      if newest.Some? {
        shared.pendingModel := Newer(shared.pendingModel, newest.value);
      }
      shared.lastAck := shared.lastAck + drained;
    }
  }

  // ---------- what the specification means ----------

  /** Nothing in the ring is newer than the model at `k`, and nothing as new comes before it. */
  predicate IsNewest(ring: seq<Payload>, k: int) {
    0 <= k < |ring| && ring[k].Load?
    && (forall i :: 0 <= i < |ring| && ring[i].Load? ==> ring[i].load.generation <= ring[k].load.generation)
    && (forall i :: 0 <= i < k && ring[i].Load? ==> ring[i].load.generation < ring[k].load.generation)
  }

  lemma NewestStays(ring: seq<Payload>, last: Payload, k: int)
    requires IsNewest(ring, k) && (last.Load? ==> last.load.generation <= ring[k].load.generation)
    ensures IsNewest(ring + [last], k)
  {}

  lemma NewestIsLast(ring: seq<Payload>, last: Payload)
    requires last.Load?
    requires forall i :: 0 <= i < |ring| && ring[i].Load? ==> ring[i].load.generation < last.load.generation
    ensures IsNewest(ring + [last], |ring|)
  {}

  /** The slot holds the strict maximum: nothing seen is newer, and among equals the
      first one seen stays. */
  lemma {:induction false} NewestIsMaximum(ring: seq<Payload>)
    ensures NewestModel(ring).None? ==> forall i :: 0 <= i < |ring| ==> !ring[i].Load?
    ensures NewestModel(ring).Some? ==>
              exists k :: IsNewest(ring, k) && NewestModel(ring) == Some(Deferred(ring[k].load))
  {
    if ring != [] {
      var n := |ring| - 1;
      var rest, last := ring[..n], ring[n];
      assert ring == rest + [last];
      NewestIsMaximum(rest);
      if NewestModel(rest).Some? {
        var k: int :| IsNewest(rest, k) && NewestModel(rest) == Some(Deferred(rest[k].load));
        NewestChoice(rest, last, k);
      } else if last.Load? {
        NewestIsLast(rest, last);
        assert NewestModel(ring) == Some(Deferred(ring[n].load));
      }
    }
  }

  lemma NewestChoice(rest: seq<Payload>, last: Payload, k: int)
    requires IsNewest(rest, k) && NewestModel(rest) == Some(Deferred(rest[k].load))
    ensures NewestModel(rest + [last]).Some?
    ensures exists j :: IsNewest(rest + [last], j) && NewestModel(rest + [last]) == Some(Deferred((rest + [last])[j].load))
  {
    var ring := rest + [last];
    assert ring[..|rest|] == rest && ring[|rest|] == last && ring[k] == rest[k];
    if last.Load? && last.load.generation > rest[k].load.generation {
      NewestIsLast(rest, last);
      assert NewestModel(ring) == Some(Deferred(ring[|rest|].load));
    } else {
      NewestStays(rest, last, k);
      assert NewestModel(ring) == Some(Deferred(ring[k].load));
    }
  }

  /** `m` carries on the load `l`: all of it but the resampler, the stream and the measured cost. */
  predicate CarriesOn(m: PendingModel, l: LoadModel) {
    m.generation == l.generation && m.modelL == l.modelL && m.modelR == l.modelR && m.modelRate == l.modelRate
    && m.inputMult == l.inputMult && m.outputMult == l.outputMult
  }

  /** What waits after a rollback is what waited, or the newest load of the ring carried on, and
      the load only when it is newer. */
  lemma WaitsOrCarriesOn(slot: Option<PendingModel>, ring: seq<Payload>)
    ensures var after := SlotAfter(slot, ring);
            if exists k :: IsNewest(ring, k) && (slot.None? || ring[k].load.generation > slot.value.generation)
            then after.Some? && exists k :: IsNewest(ring, k) && CarriesOn(after.value, ring[k].load)
            else after == slot
  {
    NewestIsMaximum(ring);
    if NewestModel(ring).None? {
      assert forall k :: !IsNewest(ring, k);
    } else {
      var k :| IsNewest(ring, k) && NewestModel(ring) == Some(Deferred(ring[k].load));
      forall j | IsNewest(ring, j) ensures ring[j].load.generation == ring[k].load.generation {}
      assert CarriesOn(Deferred(ring[k].load), ring[k].load);
    }
  }

  /** A rollback never replaces the waiting model by an older one, and afterwards the
      waiting model is at least as new as everything recovered. */
  lemma SlotOnlyGrows(slot: Option<PendingModel>, ring: seq<Payload>)
    ensures slot.Some? ==> SlotAfter(slot, ring).Some? && SlotAfter(slot, ring).value.generation >= slot.value.generation
    ensures slot.Some? && SlotAfter(slot, ring) != slot
            ==> SlotAfter(slot, ring).value.generation > slot.value.generation
    ensures forall i :: 0 <= i < |ring| && ring[i].Load? ==>
              SlotAfter(slot, ring).Some? && ring[i].load.generation <= SlotAfter(slot, ring).value.generation
  {
    NewestIsMaximum(ring);
  }

  /** Where in the ring the staged commands were. */
  function NonModelPositions(ring: seq<Payload>): seq<nat> {
    if ring == [] then []
    else
      var n := |ring| - 1;
      NonModelPositions(ring[..n]) + (if ring[n].Load? then [] else [n])
  }

  /** The staged commands are the ring's other commands in ring order, each position once. */
  lemma {:induction false} StagedInRingOrder(ring: seq<Payload>)
    ensures var at := NonModelPositions(ring);
            |at| == |NonModels(ring)|
            && (forall i :: 0 <= i < |at| ==>
                  at[i] < |ring| && !ring[at[i]].Load? && NonModels(ring)[i] == ring[at[i]])
            && (forall i, j :: 0 <= i < j < |at| ==> at[i] < at[j])
  {
    if ring != [] {
      StagedInRingOrder(ring[..|ring| - 1]);
    }
  }

  /** No other command is left out. */
  lemma {:induction false} EveryNonModelStaged(ring: seq<Payload>, k: nat)
    requires k < |ring| && !ring[k].Load?
    ensures k in NonModelPositions(ring)
  {
    var n := |ring| - 1;
    if k < n { EveryNonModelStaged(ring[..n], k); }
  }
}
