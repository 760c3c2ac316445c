/** The audio-thread end of the command channel: the sequence bookkeeping behind the
    acknowledgment, and the hooks the engine's drain calls. */
module CommandConsumer {
  import opened Options
  import opened Payloads
  import opened Rings
  import SwapDomain
  import Channel

  // ---------- specification ----------

  datatype View = View(ring: seq<Payload>, processed: nat)

  function Popped(v: View): View {
    if v.ring == [] then v else View(v.ring[1..], v.processed + 1)
  }

  function RolledBack(v: View): View
    requires v.processed > 0
  {
    v.(processed := v.processed - 1)
  }

  function Advanced(v: View): View { v.(processed := v.processed + 1) }

  // ---------- the consumer ----------

  class Consumer {
    const rx: Ring
    const lastAck: Counter
    var processedSeq: nat

    ghost function ViewOf(): View
      reads this, rx
    {
      View(rx.items, processedSeq)
    }

    /** Numbering goes on from the published acknowledgment. */
    constructor (rx: Ring, lastAck: Counter)
      ensures this.rx == rx && this.lastAck == lastAck && ViewOf() == View(rx.items, lastAck.value)
    {
      this.rx, this.lastAck := rx, lastAck;
      processedSeq := lastAck.value;
    }

    method PopBoxed() returns (r: Option<Payload>)
      modifies this, rx
      ensures r == if old(rx.items) == [] then None else Some(old(rx.items)[0])
      ensures ViewOf() == Popped(old(ViewOf()))
    {
      r := rx.Pop();
      if r.Some? { processedSeq := processedSeq + 1; }
    }

    method Peek() returns (r: Option<Payload>)
      ensures r.Some? <==> rx.items != []
      ensures r.Some? ==> r.value == rx.items[0]
    {
      r := if rx.items == [] then None else Some(rx.items[0]);
    }

    /** The candidate just popped is parked: its number is not used up. */
    method RollbackLastPop()
      requires processedSeq > 0
      modifies this
      ensures ViewOf() == RolledBack(old(ViewOf()))
    {
      processedSeq := processedSeq - 1;
    }

    /** A parked command is resolved without a pop and takes its number now. */
    method AdvancePending()
      modifies this
      ensures ViewOf() == Advanced(old(ViewOf()))
    {
      processedSeq := processedSeq + 1;
    }

    method AckProcessed()
      modifies lastAck
      ensures lastAck.value == processedSeq && ViewOf() == old(ViewOf())
    {
      lastAck.value := processedSeq;
    }

    /** What `deactivate` does with the drain's parts. */
    method ResolveParked(parked: Option<Payload>)
      modifies this, lastAck
      ensures ViewOf() == if parked.Some? then Advanced(old(ViewOf())) else old(ViewOf())
      ensures lastAck.value == if parked.Some? then processedSeq else old(lastAck.value)
    {
      if parked.Some? {
        AdvancePending();
        AckProcessed();
      }
    }
  }

  // ---------- the hooks are the channel's steps ----------

  function ChannelView(c: Channel.Chan): View { View(c.ring, c.rt.processed) }

  /** What the engine's drain asks of the consumer in each of its steps. */
  function AfterHook(v: View, parked: bool, a: Channel.Action): View
    requires a.Park? ==> v.processed > 0
  {
    match a
    case PopLight => Popped(v)
    case PopToHand => Popped(v)
    case Park => RolledBack(v)
    case InstallSlot => if parked then Advanced(v) else v
    case Supersede => if parked then Advanced(v) else v
    case Deactivate => if parked then Advanced(v) else v
    case _ => v
  }

  predicate AudioStep(a: Channel.Action) {
    a.BeginCallback? || a.PopLight? || a.PopToHand? || a.Park? || a.InstallSlot? || a.Supersede? || a.EndCallback?
    || a.Deactivate? || a.Replay? || a.Adjust?
  }

  /** In every reachable state the channel's audio-thread steps change the ring and the
      position exactly as the hooks do, and the rolled-back position never wraps. */
  lemma HooksAreChannelSteps(c: Channel.Chan, a: Channel.Action)
    requires Channel.AckInv(c) && Channel.Enabled(c, a) && AudioStep(a)
    ensures a.Park? ==> c.rt.processed > 0
    ensures ChannelView(Channel.Apply(c, a)) == AfterHook(ChannelView(c), c.rt.slot.Parked?, a)
  {
    hide SwapDomain.Install, SwapDomain.InstallAll, SwapDomain.Discard, SwapDomain.FinishCallback;
    hide SwapDomain.Adjusted;
  }

  /** A consumer built at activation, or after a rollback, starts where the last one stopped:
      outside a callback the published acknowledgment is the position. */
  lemma NewConsumerContinues(c0: Channel.Chan, acts: seq<Channel.Action>)
    requires Channel.Initial(c0) && Channel.Runs(c0, acts) && !Channel.After(c0, acts).active
    ensures Channel.After(c0, acts).cold.lastAck == Channel.After(c0, acts).rt.processed
    ensures Channel.After(c0, acts).rt.processed + |Channel.After(c0, acts).ring|
            == |Channel.After(c0, acts).hist.delivered|
  {
    Channel.AckRun(c0, acts);
  }
}
