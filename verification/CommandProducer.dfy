/** The main-thread end of the command channel: parameter snapshots coalesce in place,
    are flushed ahead of every structural command, and survive a full ring. */
module CommandProducer {
  import opened Options
  import opened Payloads
  import opened Rings
  import Channel

  // ---------- the coalescing buffer ----------

  const PARAM_COUNT: nat := 9
  const ALL_DIRTY: bv16 := 0xFF

  function Bit(idx: nat): bv16
    requires idx < PARAM_COUNT
  {
    (1 as bv16) << idx
  }

  function FromBool(b: bool): real { if b then 1.0 else 0.0 }

  function AdaptiveIndex(m: AdaptiveMode): nat {
    match m case ComputeOff => 0 case Conservative => 1 case Aggressive => 2
  }

  function SlimIndex(s: SlimOverride): nat {
    match s case Auto => 0 case ForceFull => 1 case ForceLite => 2
  }

  function ActivationIndex(a: Activation): nat { match a case Fast => 0 case Standard => 1 }

  function AdaptiveFrom(x: real): AdaptiveMode {
    if x == 1.0 then Conservative else if x == 2.0 then Aggressive else ComputeOff
  }

  function SlimFrom(x: real): SlimOverride {
    if x == 1.0 then ForceFull else if x == 2.0 then ForceLite else Auto
  }

  function FactorFrom(x: real): OversampleFactor { if x == 1.0 then X2 else if x == 2.0 then X4 else Off }

  function ActivationFrom(x: real): Activation { if x == 1.0 then Standard else Fast }

  /** A snapshot as the eight numbers of the buffer. */
  function Encoded(p: Params): seq<real> {
    [p.inputGain, p.outputGain, p.gate, FromBool(p.bypass), AdaptiveIndex(p.adaptive) as real,
     SlimIndex(p.slim) as real, FactorIndex(p.oversample) as real, ActivationIndex(p.activation) as real]
  }

  function Decoded(s: seq<real>): Params
    requires |s| == 8
  {
    Params(s[0], s[1], s[2], s[3] != 0.0, AdaptiveFrom(s[4]), SlimFrom(s[5]), FactorFrom(s[6]), ActivationFrom(s[7]))
  }

  /** A snapshot survives its trip through the buffer. */
  lemma SnapshotRoundTrip(p: Params)
    ensures Decoded(Encoded(p)) == p
  {
    match p.adaptive { case ComputeOff => case Conservative => case Aggressive => }
    match p.slim { case Auto => case ForceFull => case ForceLite => }
    match p.oversample { case Off => case X2 => case X4 => }
    match p.activation { case Fast => case Standard => }
  }

  function DefaultParams(): Params { Params(0.0, 0.0, -70.0, false, ComputeOff, Auto, Off, Fast) }

  class CoalesceBuffer {
    const slots: array<Option<real>>
    var dirtyMask: bv16

    /** The code only ever sets or takes all eight used slots together. */
    ghost predicate Valid()
      reads this, slots
    {
      slots.Length == PARAM_COUNT
      && (dirtyMask == 0 || (dirtyMask == ALL_DIRTY && forall i :: 0 <= i < 8 ==> slots[i].Some?))
    }

    ghost function Pending(): Option<Params>
      requires Valid()
      reads this, slots
    {
      if dirtyMask == 0 then None
      else Some(Decoded([slots[0].value, slots[1].value, slots[2].value, slots[3].value,
                         slots[4].value, slots[5].value, slots[6].value, slots[7].value]))
    }

    constructor ()
      ensures Valid() && fresh(slots) && Pending() == None
    {
      slots := new Option<real>[PARAM_COUNT](_ => None);
      dirtyMask := 0;
    }

    method Set(idx: nat, value: real)
      requires slots.Length == PARAM_COUNT
      modifies this, slots
      ensures idx >= PARAM_COUNT ==> slots[..] == old(slots[..]) && dirtyMask == old(dirtyMask)
      ensures idx < PARAM_COUNT ==>
                slots[..] == old(slots[..])[idx := Some(value)] && dirtyMask == old(dirtyMask) | Bit(idx)
    {
      if idx < PARAM_COUNT {
        slots[idx] := Some(value);
        dirtyMask := dirtyMask | Bit(idx);
      }
    }

    /** The eight stores of `push_params` and of `restore_snapshot`. */
    method RestoreSnapshot(p: Params)
      requires Valid()
      modifies this, slots
      ensures Valid() && Pending() == Some(p)
    {
      Set(0, p.inputGain);
      Set(1, p.outputGain);
      Set(2, p.gate);
      Set(3, FromBool(p.bypass));
      Set(4, AdaptiveIndex(p.adaptive) as real);
      Set(5, SlimIndex(p.slim) as real);
      Set(6, FactorIndex(p.oversample) as real);
      Set(7, ActivationIndex(p.activation) as real);
      EightBits(old(dirtyMask));
      SnapshotRoundTrip(p);
      assert forall i :: 0 <= i < 8 ==> slots[..][i] == Some(Encoded(p)[i]);
    }

    /** Takes one masked slot. */
    method TakeSlot(mask: bv16, idx: nat) returns (v: Option<real>)
      requires slots.Length == PARAM_COUNT && idx < PARAM_COUNT
      modifies slots
      ensures v == if mask & Bit(idx) != 0 then old(slots[idx]) else None
      ensures forall i :: 0 <= i < PARAM_COUNT && i != idx ==> slots[i] == old(slots[i])
    {
      v := None;
      if mask & Bit(idx) != 0 {
        v := slots[idx];
        slots[idx] := None;
      }
    }

    /** Empties the buffer.  No default value is ever visible in the result. */
    method TakeSnapshot() returns (r: Option<Params>)
      requires Valid()
      modifies this, slots
      ensures Valid() && r == old(Pending()) && Pending() == None
    {
      if dirtyMask == 0 { return None; }
      var mask := dirtyMask;
      dirtyMask := 0;
      var params := DefaultParams();
      AllBitsSet();
      var v := TakeSlot(mask, 0);
      if v.Some? { params := params.(inputGain := v.value); }
      v := TakeSlot(mask, 1);
      if v.Some? { params := params.(outputGain := v.value); }
      v := TakeSlot(mask, 2);
      if v.Some? { params := params.(gate := v.value); }
      v := TakeSlot(mask, 3);
      if v.Some? { params := params.(bypass := v.value != 0.0); }
      v := TakeSlot(mask, 4);
      if v.Some? { params := params.(adaptive := AdaptiveFrom(v.value)); }
      v := TakeSlot(mask, 5);
      if v.Some? { params := params.(slim := SlimFrom(v.value)); }
      v := TakeSlot(mask, 6);
      if v.Some? { params := params.(oversample := FactorFrom(v.value)); }
      v := TakeSlot(mask, 7);
      if v.Some? { params := params.(activation := ActivationFrom(v.value)); }
      r := Some(params);
    }
  }

  lemma BitValues()
    ensures Bit(0) == 1 && Bit(1) == 2 && Bit(2) == 4 && Bit(3) == 8
    ensures Bit(4) == 16 && Bit(5) == 32 && Bit(6) == 64 && Bit(7) == 128
  {}

  lemma EightBits(m: bv16)
    requires m == 0 || m == ALL_DIRTY
    ensures m | Bit(0) | Bit(1) | Bit(2) | Bit(3) | Bit(4) | Bit(5) | Bit(6) | Bit(7) == ALL_DIRTY
  {
    BitValues();
  }

  lemma AllBitsSet()
    ensures ALL_DIRTY & Bit(0) != 0 && ALL_DIRTY & Bit(1) != 0 && ALL_DIRTY & Bit(2) != 0 && ALL_DIRTY & Bit(3) != 0
    ensures ALL_DIRTY & Bit(4) != 0 && ALL_DIRTY & Bit(5) != 0 && ALL_DIRTY & Bit(6) != 0 && ALL_DIRTY & Bit(7) != 0
  {
    BitValues();
  }

  // ---------- specification of the producer ----------

  datatype View = View(pending: Option<Params>, ring: seq<Payload>, capacity: nat, nextSeq: nat)

  /** `Ok(seq)`, where 0 means there was nothing to flush, or `Full`. */
  datatype Outcome = Accepted(seqNo: nat) | Full

  function Delivered(v: View, p: Payload): View { v.(ring := v.ring + [p], nextSeq := v.nextSeq + 1) }

  function Flushed(v: View): View {
    if v.pending.Some? && |v.ring| < v.capacity then Delivered(v, ParamsUpdate(v.pending.value)).(pending := None) else v
  }

  function FlushOutcome(v: View): Outcome {
    if v.pending.None? then Accepted(0) else if |v.ring| < v.capacity then Accepted(v.nextSeq + 1) else Full
  }

  function TrySent(v: View, cmd: Payload): View {
    if FlushOutcome(v).Full? || |Flushed(v).ring| >= v.capacity then Flushed(v) else Delivered(Flushed(v), cmd)
  }

  function TryOutcome(v: View, cmd: Payload): Outcome {
    if FlushOutcome(v).Full? || |Flushed(v).ring| >= v.capacity then Full else Accepted(Flushed(v).nextSeq + 1)
  }

  /** What `is_acked` answers. */
  predicate Acknowledged(lastAck: nat, seqNo: nat) { lastAck >= seqNo }

  // ---------- the producer ----------

  class Producer {
    const tx: Ring
    const nextSeq: Counter
    const lastAck: Counter
    const coalescing: CoalesceBuffer

    ghost predicate Valid()
      reads this, coalescing, coalescing.slots
    {
      coalescing.Valid() && nextSeq != lastAck
    }

    ghost function ViewOf(): View
      requires Valid()
      reads this, coalescing, coalescing.slots, tx, nextSeq
    {
      View(coalescing.Pending(), tx.items, tx.capacity, nextSeq.value)
    }

    constructor (tx: Ring, nextSeq: Counter, lastAck: Counter)
      requires nextSeq != lastAck
      ensures Valid() && fresh(coalescing) && fresh(coalescing.slots)
      ensures this.tx == tx && this.nextSeq == nextSeq && this.lastAck == lastAck
      ensures ViewOf() == View(None, tx.items, tx.capacity, nextSeq.value)
    {
      this.tx, this.nextSeq, this.lastAck := tx, nextSeq, lastAck;
      coalescing := new CoalesceBuffer();
    }

    /** A new snapshot replaces the pending one; the result says whether none was pending. */
    method PushParams(p: Params) returns (opensBatch: bool)
      requires Valid()
      modifies coalescing, coalescing.slots
      ensures Valid() && ViewOf() == old(ViewOf()).(pending := Some(p))
      ensures opensBatch == old(ViewOf()).pending.None?
    {
      var hadPending := coalescing.dirtyMask != 0;
      coalescing.RestoreSnapshot(p);
      opensBatch := !hadPending;
    }

    /** A full ring leaves the snapshot where it was. */
    method ForceFlush() returns (r: Outcome)
      requires Valid()
      modifies coalescing, coalescing.slots, tx, nextSeq
      ensures Valid() && r == FlushOutcome(old(ViewOf())) && ViewOf() == Flushed(old(ViewOf()))
    {
      var snapshot := coalescing.TakeSnapshot();
      if snapshot.None? { return Accepted(0); }
      var ok := tx.Push(ParamsUpdate(snapshot.value));
      if ok {
        var seqNo := nextSeq.value + 1;
        nextSeq.value := seqNo;
        return Accepted(seqNo);
      }
      coalescing.RestoreSnapshot(snapshot.value);
      return Full;
    }

    /** On `Full` the command comes back to the caller, whether the snapshot or the command
        found no room. */
    method TryPushCommand(cmd: Payload) returns (r: Outcome, back: Option<Payload>)
      requires Valid()
      modifies coalescing, coalescing.slots, tx, nextSeq
      ensures Valid() && r == TryOutcome(old(ViewOf()), cmd) && ViewOf() == TrySent(old(ViewOf()), cmd)
      ensures back == if r.Full? then Some(cmd) else None
    {
      r := ForceFlush();
      if r.Full? { return Full, Some(cmd); }
      var ok := tx.Push(cmd);
      if ok {
        var seqNo := nextSeq.value + 1;
        nextSeq.value := seqNo;
        return Accepted(seqNo), None;
      }
      return Full, Some(cmd);
    }

    method PushCommand(cmd: Payload) returns (r: Outcome)
      requires Valid()
      modifies coalescing, coalescing.slots, tx, nextSeq
      ensures Valid() && r == TryOutcome(old(ViewOf()), cmd) && ViewOf() == TrySent(old(ViewOf()), cmd)
    {
      var back;
      r, back := TryPushCommand(cmd);
    }

    predicate IsAcked(seqNo: nat)
      reads this, lastAck
    {
      Acknowledged(lastAck.value, seqNo)
    }
  }

  // ---------- histories ----------

  datatype Call = PushCall(params: Params) | FlushCall | SendCall(cmd: Payload) | PopCall

  /** The producer with everything the consumer has popped and everything asked for.  Only
      accepted structural commands are asked for: a refused one is back with its caller. */
  datatype Hist = Hist(v: View, popped: seq<Payload>, asked: seq<Payload>)

  function Step(h: Hist, call: Call): Hist {
    match call
    case PushCall(p) => h.(v := h.v.(pending := Some(p)), asked := h.asked + [ParamsUpdate(p)])
    case FlushCall => h.(v := Flushed(h.v))
    case SendCall(cmd) =>
      h.(v := TrySent(h.v, cmd), asked := if TryOutcome(h.v, cmd).Accepted? then h.asked + [cmd] else h.asked)
    case PopCall =>
      if h.v.ring == [] then h
      else h.(v := h.v.(ring := h.v.ring[1..]), popped := h.popped + [h.v.ring[0]])
  }

  function RunCalls(h: Hist, calls: seq<Call>): Hist
    decreases |calls|
  {
    if calls == [] then h else RunCalls(Step(h, calls[0]), calls[1..])
  }

  /** Everything that ever entered the ring, in order. */
  function AllDelivered(h: Hist): seq<Payload> { h.popped + h.v.ring }

  /** ... and what would enter it next. */
  function Outgoing(h: Hist): seq<Payload> {
    AllDelivered(h) + (if h.v.pending.Some? then [ParamsUpdate(h.v.pending.value)] else [])
  }

  /** The last snapshot of a stream of commands. */
  function InForce(s: seq<Payload>): Option<Params> {
    if s == [] then None
    else if s[|s| - 1].ParamsUpdate? then Some(s[|s| - 1].params)
    else InForce(s[..|s| - 1])
  }

  /** The structural commands of a stream, each with the parameters in force before it. */
  function Commands(s: seq<Payload>): seq<(Option<Params>, Payload)> {
    if s == [] then []
    else if s[|s| - 1].ParamsUpdate? then Commands(s[..|s| - 1])
    else Commands(s[..|s| - 1]) + [(InForce(s[..|s| - 1]), s[|s| - 1])]
  }

  lemma LastOne(s: seq<Payload>, p: Payload)
    ensures InForce(s + [p]) == if p.ParamsUpdate? then Some(p.params) else InForce(s)
    ensures Commands(s + [p]) == if p.ParamsUpdate? then Commands(s) else Commands(s) + [(InForce(s), p)]
  {
    assert (s + [p])[..|s|] == s;
  }

  ghost predicate Refines(h: Hist) {
    InForce(Outgoing(h)) == InForce(h.asked) && Commands(Outgoing(h)) == Commands(h.asked)
    && Commands(AllDelivered(h)) == Commands(h.asked)
    && h.v.nextSeq == |AllDelivered(h)| && |h.v.ring| <= h.v.capacity
  }

  predicate SendsStructural(call: Call) { call.SendCall? ==> IsStructural(call.cmd) }

  lemma FlushRefines(h: Hist)
    requires Refines(h)
    ensures Refines(h.(v := Flushed(h.v))) && Outgoing(h.(v := Flushed(h.v))) == Outgoing(h)
  {
    var g := h.(v := Flushed(h.v));
    if h.v.pending.Some? {
      assert Outgoing(h) == AllDelivered(h) + [ParamsUpdate(h.v.pending.value)];
      LastOne(AllDelivered(h), ParamsUpdate(h.v.pending.value));
      if g.v.pending.None? {
        assert AllDelivered(g) == Outgoing(h) == Outgoing(g);
      }
    }
  }

  lemma SendRefines(h: Hist, cmd: Payload)
    requires Refines(h) && IsStructural(cmd)
    ensures Refines(Step(h, SendCall(cmd)))
  {
    FlushRefines(h);
    var f := h.(v := Flushed(h.v));
    var g := Step(h, SendCall(cmd));
    if TryOutcome(h.v, cmd).Accepted? {
      assert f.v.pending.None?;
      assert Outgoing(f) == AllDelivered(f);
      assert AllDelivered(g) == AllDelivered(f) + [cmd] == Outgoing(g);
      LastOne(AllDelivered(f), cmd);
      LastOne(h.asked, cmd);
    } else {
      assert g == f;
    }
  }

  lemma StepRefines(h: Hist, call: Call)
    requires Refines(h) && SendsStructural(call)
    ensures Refines(Step(h, call))
  {
    var g := Step(h, call);
    match call {
      case PushCall(p) =>
        LastOne(h.asked, ParamsUpdate(p));
        LastOne(AllDelivered(h), ParamsUpdate(p));
        assert Outgoing(g) == AllDelivered(h) + [ParamsUpdate(p)];
        assert AllDelivered(g) == AllDelivered(h);
      case FlushCall => FlushRefines(h);
      case SendCall(cmd) => SendRefines(h, cmd);
      case PopCall => assert AllDelivered(g) == AllDelivered(h);
    }
  }

  predicate CallsSendStructural(calls: seq<Call>) {
    forall i :: 0 <= i < |calls| ==> SendsStructural(calls[i])
  }

  lemma {:induction false} RunRefines(h: Hist, calls: seq<Call>)
    requires Refines(h) && CallsSendStructural(calls)
    ensures Refines(RunCalls(h, calls))
    decreases |calls|
  {
    if calls != [] {
      StepRefines(h, calls[0]);
      RunRefines(Step(h, calls[0]), calls[1..]);
    }
  }

  /** The coalescing producer over a bounded ring refines a plain unbounded queue: for every
      history of pushes, flushes, refusals and pops, the structural commands that entered the
      ring are exactly the accepted ones, in order, each with the last parameters pushed before
      it; and the parameters last pushed are in the ring or still waiting in the buffer. */
  lemma CoalescingRefinesPlainQueue(capacity: nat, calls: seq<Call>)
    requires CallsSendStructural(calls)
    ensures var h := RunCalls(Hist(View(None, [], capacity, 0), [], []), calls);
            Commands(AllDelivered(h)) == Commands(h.asked) && InForce(Outgoing(h)) == InForce(h.asked)
            && h.v.nextSeq == |AllDelivered(h)| && |h.v.ring| <= capacity
  {
    var h0 := Hist(View(None, [], capacity, 0), [], []);
    assert AllDelivered(h0) == [] && Outgoing(h0) == [];
    RunRefines(h0, calls);
    CapacityStays(h0, calls);
  }

  lemma {:induction false} CapacityStays(h: Hist, calls: seq<Call>)
    ensures RunCalls(h, calls).v.capacity == h.v.capacity
    decreases |calls|
  {
    if calls != [] { CapacityStays(Step(h, calls[0]), calls[1..]); }
  }

  /** A structural command is refused exactly when the ring has no room for it and for the snapshot
      that goes first; the snapshot is delivered even then if there is room for that alone.
      Numbers count what is delivered. */
  lemma RefusedExactlyWithoutRoom(v: View, cmd: Payload)
    ensures var need := if v.pending.Some? then 2 else 1;
            var ahead := if v.pending.Some? then [ParamsUpdate(v.pending.value)] else [];
            if |v.ring| + need <= v.capacity then
              TryOutcome(v, cmd) == Accepted(v.nextSeq + need)
              && TrySent(v, cmd) == View(None, v.ring + ahead + [cmd], v.capacity, v.nextSeq + need)
            else if v.pending.Some? && |v.ring| < v.capacity then
              TryOutcome(v, cmd) == Full
              && TrySent(v, cmd) == View(None, v.ring + ahead, v.capacity, v.nextSeq + 1)
            else TryOutcome(v, cmd) == Full && TrySent(v, cmd) == v
    ensures if v.pending.None? then FlushOutcome(v) == Accepted(0) && Flushed(v) == v
            else if |v.ring| < v.capacity then
              FlushOutcome(v) == Accepted(v.nextSeq + 1)
              && Flushed(v) == View(None, v.ring + [ParamsUpdate(v.pending.value)], v.capacity, v.nextSeq + 1)
            else FlushOutcome(v) == Full && Flushed(v) == v
  {
    assert v.ring + [] == v.ring;
  }

  /** A failed flush loses nothing, and a retry after a pop delivers the latest snapshot. */
  lemma FailedFlushIsRetried(v: View, later: Params)
    requires FlushOutcome(v).Full? && v.capacity > 0 && |v.ring| <= v.capacity
    ensures Flushed(v) == v
    ensures var retry := v.(pending := Some(later), ring := v.ring[1..]);
            FlushOutcome(retry) == Accepted(v.nextSeq + 1)
            && Flushed(retry).ring == v.ring[1..] + [ParamsUpdate(later)] && Flushed(retry).pending.None?
  {}

  /** The number handed out for a command is its position among everything delivered. */
  lemma SequenceIsPosition(h: Hist, cmd: Payload)
    requires Refines(h) && IsStructural(cmd) && TryOutcome(h.v, cmd).Accepted?
    ensures var g := Step(h, SendCall(cmd));
            TryOutcome(h.v, cmd).seqNo == |AllDelivered(g)| && AllDelivered(g)[|AllDelivered(g)| - 1] == cmd
  {
    SendRefines(h, cmd);
  }

  // ---------- the same calls as steps of the channel ----------

  function ChannelView(c: Channel.Chan): View { View(c.main.pending, c.ring, c.capacity, c.main.nextSeq) }

  /** The channel steps one call is made of. */
  function FlushSteps(v: View): seq<Channel.Action> {
    if v.pending.Some? && |v.ring| < v.capacity then [Channel.Flush, Channel.Count] else []
  }

  function SendSteps(v: View, cmd: Payload): seq<Channel.Action> {
    FlushSteps(v) + (if TryOutcome(v, cmd).Accepted? then [Channel.Send(cmd), Channel.Count] else [])
  }

  lemma FlushIsARun(c: Channel.Chan)
    requires c.main.uncounted == 0
    ensures var acts := FlushSteps(ChannelView(c));
            Channel.Runs(c, acts) && ChannelView(Channel.After(c, acts)) == Flushed(ChannelView(c))
            && Channel.After(c, acts).main.uncounted == 0
            && Channel.After(c, acts).hist.accepted == c.hist.accepted
  {
    if FlushSteps(ChannelView(c)) != [] {
      var c1 := Channel.Apply(c, Channel.Flush);
      Channel.TwoSteps(c, Channel.Flush, Channel.Count);
    }
  }

  /** A call of `try_push_command` is a run of the channel's producer steps, so everything
      proved about channel runs holds of the producer's code. */
  lemma TryPushIsARun(c: Channel.Chan, cmd: Payload)
    requires c.main.uncounted == 0
    ensures var acts := SendSteps(ChannelView(c), cmd);
            Channel.Runs(c, acts) && ChannelView(Channel.After(c, acts)) == TrySent(ChannelView(c), cmd)
            && Channel.After(c, acts).main.uncounted == 0
            && Channel.After(c, acts).hist.accepted
               == c.hist.accepted + (if TryOutcome(ChannelView(c), cmd).Accepted? then [cmd] else [])
  {
    FlushIsARun(c);
    var first := FlushSteps(ChannelView(c));
    var d := Channel.After(c, first);
    if TryOutcome(ChannelView(c), cmd).Accepted? {
      SendOnly(d, cmd);
      Channel.RunsConcat(c, first, [Channel.Send(cmd), Channel.Count]);
    } else {
      assert first + [] == first;
    }
  }

  lemma LastDelivered(c: Channel.Chan, cmd: Payload)
    requires Channel.AckInv(c) && c.main.uncounted == 0 && c.ring != [] && c.ring[|c.ring| - 1] == cmd
    ensures c.main.nextSeq == |c.hist.delivered| > 0 && c.hist.delivered[c.main.nextSeq - 1] == cmd
  {
    var n := |c.hist.fates|;
    var w := Channel.Waiting(c);
    assert w[|w| - 1] == cmd;
    assert c.hist.delivered[n..][|w| - 1] == c.hist.delivered[n + |w| - 1];
  }

  lemma AckCoversFates(c: Channel.Chan, seqNo: nat)
    requires Channel.AckInv(c)
    ensures Acknowledged(c.cold.lastAck, seqNo) ==> seqNo <= |c.hist.fates| <= |c.hist.delivered|
    ensures !c.rt.inside ==> (Acknowledged(c.cold.lastAck, seqNo) <==> seqNo <= |c.hist.fates|)
  {}

  /** What the number returned for a command is good for.  In any later state it is still that
      command's position; once `is_acked` says yes the command's fate is settled for good; and
      outside a callback `is_acked` says yes exactly when it is. */
  lemma AcknowledgedMeansSettled(
      c0: Channel.Chan, before: seq<Channel.Action>, cmd: Payload, after: seq<Channel.Action>)
    requires Channel.Initial(c0) && Channel.Runs(c0, before) && Channel.After(c0, before).main.uncounted == 0
    requires TryOutcome(ChannelView(Channel.After(c0, before)), cmd).Accepted?
    requires Channel.Runs(Channel.After(c0, before), SendSteps(ChannelView(Channel.After(c0, before)), cmd) + after)
    ensures var c := Channel.After(c0, before);
            var seqNo := TryOutcome(ChannelView(c), cmd).seqNo;
            var e := Channel.After(c, SendSteps(ChannelView(c), cmd) + after);
            0 < seqNo <= |e.hist.delivered| && e.hist.delivered[seqNo - 1] == cmd
            && (Acknowledged(e.cold.lastAck, seqNo) ==> seqNo <= |e.hist.fates|)
            && (!e.rt.inside ==> (Acknowledged(e.cold.lastAck, seqNo) <==> seqNo <= |e.hist.fates|))
  {
    hide Channel.Runs, Channel.After, Channel.AckInv, SendSteps;
    InitialAck(c0);
    Channel.RunIsMonotone(c0, before);
    var c := Channel.After(c0, before);
    var sends := SendSteps(ChannelView(c), cmd);
    TryPushIsARun(c, cmd);
    Channel.RunIsMonotone(c, sends);
    var d := Channel.After(c, sends);
    LastDelivered(d, cmd);
    SplitRun(c, sends, after);
    Channel.RunIsMonotone(d, after);
    AckCoversFates(Channel.After(d, after), TryOutcome(ChannelView(c), cmd).seqNo);
  }

  lemma InitialAck(c0: Channel.Chan)
    requires Channel.Initial(c0)
    ensures Channel.AckInv(c0)
  {}

  lemma {:induction false} SplitRun(c: Channel.Chan, a: seq<Channel.Action>, b: seq<Channel.Action>)
    requires Channel.Runs(c, a) && Channel.Runs(c, a + b)
    ensures Channel.Runs(Channel.After(c, a), b) && Channel.After(c, a + b) == Channel.After(Channel.After(c, a), b)
    decreases |a|
  {
    hide Channel.Enabled, Channel.Apply;
    if a == [] {
      assert a + b == b;
    } else {
      assert (a + b)[0] == a[0] && (a + b)[1..] == a[1..] + b;
      SplitRun(Channel.Apply(c, a[0]), a[1..], b);
    }
  }

  lemma SendOnly(c: Channel.Chan, cmd: Payload)
    requires c.main.uncounted == 0 && c.main.pending.None? && |c.ring| < c.capacity
    ensures var acts := [Channel.Send(cmd), Channel.Count];
            Channel.Runs(c, acts) && ChannelView(Channel.After(c, acts)) == Delivered(ChannelView(c), cmd)
            && Channel.After(c, acts).main.uncounted == 0
            && Channel.After(c, acts).hist.accepted == c.hist.accepted + [cmd]
  {
    Channel.TwoSteps(c, Channel.Send(cmd), Channel.Count);
  }
}
