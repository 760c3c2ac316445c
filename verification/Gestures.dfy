/** GUI gestures on their way to the host: three bits per parameter packed into one word,
    set by the GUI and drained into an output queue that may refuse any event. */
module Gestures {
  import opened Options

  // ---------- the word ----------

  /** The parameters; the active model is read-only and never drained. */
  datatype Index =
    | InputGain | OutputGain | GateThresh | Bypass | ActiveModel | AdaptiveCompute | Slim | Oversample | Precision

  function ParamId(p: Index): (id: bv32)
    ensures id < 9
  {
    match p
    case InputGain => 0
    case OutputGain => 1
    case GateThresh => 2
    case Bypass => 3
    case ActiveModel => 4
    case AdaptiveCompute => 5
    case Slim => 6
    case Oversample => 7
    case Precision => 8
  }

  datatype Kind = Changed | Begin | End

  function Shift(k: Kind): (s: bv32)
    ensures s < 3
  {
    match k case Changed => 0 case Begin => 1 case End => 2
  }

  /** Three bits per parameter. */
  function Position(p: Index, k: Kind): (s: bv32)
    ensures s < 27
  {
    Place(ParamId(p), Shift(k))
  }

  function Place(id: bv32, shift: bv32): (s: bv32)
    requires id < 9 && shift < 3
    ensures s < 27
  {
    id * 3 + shift
  }

  function Mask(s: bv32): bv32
    requires s < 32
  {
    (1 as bv32) << s
  }

  function And(w: bv32, m: bv32): bv32 { w & m }

  function Join(w: bv32, m: bv32): bv32 { w | m }

  function Drop(w: bv32, m: bv32): bv32 { w & !m }

  function Bit(p: Index, k: Kind): bv32 { Mask(Position(p, k)) }

  predicate Has(w: bv32, p: Index, k: Kind) { And(w, Bit(p, k)) != 0 }

  function Set(w: bv32, p: Index, k: Kind): bv32 { Join(w, Bit(p, k)) }

  function Cleared(w: bv32, p: Index, k: Kind): bv32 { Drop(w, Bit(p, k)) }

  // Facts about single words, one at a time: together they cost the solver far more.

  lemma MaskIsOneBit(w: bv32, s: bv32)
    requires s < 32
    ensures Mask(s) != 0 && (And(w, Mask(s)) != 0 ==> And(w, Mask(s)) == Mask(s))
  {}

  lemma MasksDisjoint(s: bv32, t: bv32)
    requires s < 32 && t < 32 && s != t
    ensures And(Mask(s), Mask(t)) == 0
  {}

  lemma JoinShows(w: bv32, a: bv32)
    ensures And(Join(w, a), a) == a
  {}

  lemma DropHides(w: bv32, a: bv32)
    ensures And(Drop(w, a), a) == 0
  {}

  lemma PutBack(w: bv32, a: bv32)
    requires And(w, a) == a
    ensures Join(Drop(w, a), a) == w
  {}

  lemma NothingToDrop(w: bv32, a: bv32)
    requires And(w, a) == 0
    ensures Drop(w, a) == w
  {}

  lemma JoinLeaves(w: bv32, a: bv32, b: bv32)
    requires And(a, b) == 0
    ensures And(Join(w, a), b) == And(w, b)
  {}

  lemma DropLeaves(w: bv32, a: bv32, b: bv32)
    requires And(a, b) == 0
    ensures And(Drop(w, a), b) == And(w, b)
  {}

  lemma PlacesDiffer(i: bv32, s: bv32, j: bv32, t: bv32)
    requires i < 9 && j < 9 && s < 3 && t < 3
    ensures Place(i, s) == Place(j, t) <==> i == j && s == t
  {}

  lemma IdsDiffer(p: Index, q: Index)
    ensures ParamId(p) == ParamId(q) <==> p == q
  {}

  lemma PositionsDiffer(p: Index, k: Kind, q: Index, l: Kind)
    ensures Position(p, k) == Position(q, l) <==> p == q && k == l
  {
    hide ParamId, Place;
    IdsDiffer(p, q);
    PlacesDiffer(ParamId(p), Shift(k), ParamId(q), Shift(l));
  }

  /** The word is a set of (parameter, kind) pairs: setting adds one pair, taking
      removes one, and putting a taken bit back restores the word. */
  lemma WordIsASet(w: bv32, p: Index, k: Kind, q: Index, l: Kind)
    ensures Has(Set(w, p, k), q, l) <==> (p == q && k == l) || Has(w, q, l)
    ensures Has(Cleared(w, p, k), q, l) <==> !(p == q && k == l) && Has(w, q, l)
    ensures Has(w, p, k) ==> Set(Cleared(w, p, k), p, k) == w
    ensures !Has(w, p, k) ==> Cleared(w, p, k) == w
  {
    hide Has, Set, Cleared;
    SamePair(w, p, k);
    if p != q || k != l { OtherPair(w, p, k, q, l); }
  }

  lemma SamePair(w: bv32, p: Index, k: Kind)
    ensures Has(Set(w, p, k), p, k) && !Has(Cleared(w, p, k), p, k)
    ensures if Has(w, p, k) then Set(Cleared(w, p, k), p, k) == w else Cleared(w, p, k) == w
  {
    hide And, Join, Drop, Bit;
    var a := Bit(p, k);
    BitIsOneBit(w, p, k);
    JoinShows(w, a);
    DropHides(w, a);
    if And(w, a) == 0 { NothingToDrop(w, a); } else { PutBack(w, a); }
  }

  lemma OtherPair(w: bv32, p: Index, k: Kind, q: Index, l: Kind)
    requires p != q || k != l
    ensures Has(Set(w, p, k), q, l) == Has(w, q, l)
    ensures Has(Cleared(w, p, k), q, l) == Has(w, q, l)
  {
    hide And, Join, Drop, Bit;
    BitsDiffer(p, k, q, l);
    JoinLeaves(w, Bit(p, k), Bit(q, l));
    DropLeaves(w, Bit(p, k), Bit(q, l));
  }

  lemma BitIsOneBit(w: bv32, p: Index, k: Kind)
    ensures Bit(p, k) != 0 && (And(w, Bit(p, k)) != 0 ==> And(w, Bit(p, k)) == Bit(p, k))
  {
    hide And, Mask, Position;
    MaskIsOneBit(w, Position(p, k));
  }

  lemma BitsDiffer(p: Index, k: Kind, q: Index, l: Kind)
    requires p != q || k != l
    ensures And(Bit(p, k), Bit(q, l)) == 0
  {
    hide And, Mask, Position;
    PositionsDiffer(p, k, q, l);
    MasksDisjoint(Position(p, k), Position(q, l));
  }

  // ---------- the drain, specified ----------

  const SLOTS: nat := 24

  /** The eight drained parameters, in the order of the code's table. */
  function SlotParam(j: nat): Index
    requires j < SLOTS
  {
    if j < 3 then InputGain else if j < 6 then OutputGain else if j < 9 then GateThresh else if j < 12 then Bypass
    else if j < 15 then AdaptiveCompute else if j < 18 then Slim else if j < 21 then Oversample else Precision
  }

  /** Within a parameter: begin, then value, then end. */
  function SlotKind(j: nat): Kind {
    if j % 3 == 0 then Begin else if j % 3 == 1 then Changed else End
  }

  predicate Pending(w: bv32, j: nat)
    requires j < SLOTS
  {
    Has(w, SlotParam(j), SlotKind(j))
  }

  datatype Event = Event(param: Index, kind: Kind, raw: bv32)

  /** `room` is how many events the queue accepts before it refuses one. */
  datatype Port = Port(w: bv32, cells: map<Index, bv32>, out: seq<Event>, room: nat)

  function Cell(cells: map<Index, bv32>, p: Index): bv32 { if p in cells then cells[p] else 0 }

  function EventAt(cells: map<Index, bv32>, j: nat): Event
    requires j < SLOTS
  {
    Event(SlotParam(j), SlotKind(j), if SlotKind(j).Changed? then Cell(cells, SlotParam(j)) else 0)
  }

  function Emit(s: Port, j: nat): Port
    requires j < SLOTS && s.room > 0
  {
    s.(w := Cleared(s.w, SlotParam(j), SlotKind(j)), out := s.out + [EventAt(s.cells, j)], room := s.room - 1)
  }

  /** The drain from slot `j` on; a refusal stops it. */
  function DrainFrom(s: Port, j: nat): Port
    requires j <= SLOTS
    decreases SLOTS - j
  {
    if j == SLOTS then s
    else if !Pending(s.w, j) then DrainFrom(s, j + 1)
    else if s.room == 0 then s
    else DrainFrom(Emit(s, j), j + 1)
  }

  /** The slot whose event was refused, or `SLOTS`. */
  function StopsAt(s: Port, j: nat): nat
    requires j <= SLOTS
    decreases SLOTS - j
  {
    if j == SLOTS then SLOTS
    else if !Pending(s.w, j) then StopsAt(s, j + 1)
    else if s.room == 0 then j
    else StopsAt(Emit(s, j), j + 1)
  }

  // ---------- GUI steps and drains ----------

  /** `open` and `owing` record what the GUI has done; the code does not hold them. */
  datatype State = State(
    w: bv32,
    cells: map<Index, bv32>,
    out: seq<Event>,
    open: set<Index>,         // gestures begun and not ended
    owing: set<Index>)        // values stored and not yet marked as changed

  datatype Act =
    | BeginGesture(p: Index) | StoreRaw(p: Index, raw: bv32) | MarkChanged(p: Index) | EndGesture(p: Index)
    | Drain(room: nat)

  const START: State := State(0, map[], [], {}, {})

  function PortOf(s: State, room: nat): Port { Port(s.w, s.cells, s.out, room) }

  function WithPort(s: State, d: Port): State { s.(w := d.w, out := d.out) }

  function Apply(s: State, a: Act): State {
    match a
    case BeginGesture(p) => s.(w := Set(s.w, p, Begin), open := s.open + {p})
    case StoreRaw(p, raw) => s.(cells := s.cells[p := raw], owing := s.owing + {p})
    case MarkChanged(p) => s.(w := Set(s.w, p, Changed), owing := s.owing - {p})
    case EndGesture(p) => s.(w := Set(s.w, p, End), open := s.open - {p})
    case Drain(room) => WithPort(s, DrainFrom(PortOf(s, room), 0))
  }

  function After(s: State, acts: seq<Act>): State
    decreases |acts|
  {
    if acts == [] then s else After(Apply(s, acts[0]), acts[1..])
  }

  // ---------- the code ----------

  class OutputQueue {
    var room: nat
    var events: seq<Event>

    constructor (room: nat)
      ensures this.room == room && events == []
    {
      this.room, events := room, [];
    }

    method TryPush(e: Event) returns (ok: bool)
      modifies this
      ensures ok == (old(room) > 0) && events == (if ok then old(events) + [e] else old(events))
      ensures room == if ok then old(room) - 1 else 0
    {
      ok := room > 0;
      if ok {
        events := events + [e];
        room := room - 1;
      }
    }
  }

  class GuiShared {
    var flags: bv32
    var cells: map<Index, bv32>
    var backpressure: bool
    ghost var told: seq<Event>      // everything any host queue accepted
    ghost var open: set<Index>
    ghost var owing: set<Index>

    constructor ()
      ensures StateView() == START && !backpressure
    {
      flags, cells, backpressure := 0, map[], false;
      told, open, owing := [], {}, {};
    }

    ghost function StateView(): State
      reads this
    {
      State(flags, cells, told, open, owing)
    }

    ghost function PortView(q: OutputQueue): Port
      reads this, q
    {
      Port(flags, cells, told, q.room)
    }

    method SetGesture(p: Index, k: Kind)
      modifies `flags
      ensures flags == Set(old(flags), p, k)
    {
      flags := Set(flags, p, k);
    }

    method TakeGesture(p: Index, k: Kind) returns (was: bool)
      modifies `flags
      ensures was == Has(old(flags), p, k) && flags == Cleared(old(flags), p, k)
    {
      was := Has(flags, p, k);
      flags := Cleared(flags, p, k);
    }

    method BeginGesture(p: Index)
      modifies `flags, `open
      ensures StateView() == Apply(old(StateView()), Act.BeginGesture(p))
    {
      SetGesture(p, Begin);
      open := open + {p};
    }

    method EndGesture(p: Index)
      modifies `flags, `open
      ensures StateView() == Apply(old(StateView()), Act.EndGesture(p))
    {
      SetGesture(p, End);
      open := open - {p};
    }

    method MarkParamChanged(p: Index)
      modifies `flags, `owing
      ensures StateView() == Apply(old(StateView()), MarkChanged(p))
    {
      SetGesture(p, Changed);
      owing := owing - {p};
    }

    /** A handler for a moved control: the value first, then the bit. */
    method ValueChanged(p: Index, raw: bv32)
      modifies `flags, `cells, `owing
      ensures StateView() == Apply(Apply(old(StateView()), StoreRaw(p, raw)), MarkChanged(p))
    {
      cells := cells[p := raw];
      owing := owing + {p};
      MarkParamChanged(p);
    }

    /** Takes one bit and offers its event; a refusal puts the bit back. */
    method Offer(q: OutputQueue, j: nat) returns (ok: bool)
      requires j < SLOTS
      modifies `flags, `backpressure, `told, q
      ensures SameEvents(old(told), told, old(q.events), q.events)
      ensures ok ==> DrainFrom(PortView(q), j + 1) == DrainFrom(old(PortView(q)), j)
                     && StopsAt(PortView(q), j + 1) == StopsAt(old(PortView(q)), j) && backpressure == old(backpressure)
      ensures !ok ==> PortView(q) == DrainFrom(old(PortView(q)), j) && StopsAt(old(PortView(q)), j) == j && backpressure
    {
      hide Has, Cleared, Set, DrainFrom, StopsAt;
      var p, k := SlotParam(j), SlotKind(j);
      WordIsASet(flags, p, k, p, k);
      DrainNext(PortView(q), j);
      var was := TakeGesture(p, k);
      if was {
        var accepted := q.TryPush(EventAt(cells, j));
        if !accepted {
          SetGesture(p, k);
          backpressure := true;
          return false;
        }
        told := told + [EventAt(cells, j)];
      }
      ok := true;
    }

    /** The three slots of one parameter, or up to a refusal. */
    method OfferParam(q: OutputQueue, i: nat) returns (ok: bool)
      requires i < 8
      modifies `flags, `backpressure, `told, q
      ensures SameEvents(old(told), told, old(q.events), q.events)
      ensures ok ==> DrainFrom(PortView(q), 3 * i + 3) == DrainFrom(old(PortView(q)), 3 * i)
                     && StopsAt(PortView(q), 3 * i + 3) == StopsAt(old(PortView(q)), 3 * i)
                     && backpressure == old(backpressure)
      ensures !ok ==> PortView(q) == DrainFrom(old(PortView(q)), 3 * i) && StopsAt(old(PortView(q)), 3 * i) < SLOTS
                      && backpressure
    {
      hide DrainFrom, StopsAt;
      ok := Offer(q, 3 * i);
      if !ok { return; }
      ok := Offer(q, 3 * i + 1);
      if !ok { return; }
      ok := Offer(q, 3 * i + 2);
    }

    method WriteGuiEvents(q: OutputQueue)
      modifies `flags, `backpressure, `told, q
      ensures PortView(q) == DrainFrom(old(PortView(q)), 0)
      ensures StateView() == Apply(old(StateView()), Drain(old(q.room)))
      ensures SameEvents(old(told), told, old(q.events), q.events)
      ensures backpressure == (old(backpressure) || StopsAt(old(PortView(q)), 0) < SLOTS)
    {
      hide DrainFrom, StopsAt;
      if flags == 0 {
        EmptyWordDrains(PortView(q), 0);
        return;
      }
      var i := 0;
      while i < 8
        invariant 0 <= i <= 8
        invariant DrainFrom(PortView(q), 3 * i) == DrainFrom(old(PortView(q)), 0)
        invariant StopsAt(PortView(q), 3 * i) == StopsAt(old(PortView(q)), 0)
        invariant backpressure == old(backpressure)
        invariant SameEvents(old(told), told, old(q.events), q.events)
      {
        var ok := OfferParam(q, i);
        if !ok { return; }
        i := i + 1;
      }
      AllOffered(PortView(q));
    }
  }

  /** Both sequences grew by the same events. */
  predicate SameEvents(was: seq<Event>, now: seq<Event>, queued: seq<Event>, queue: seq<Event>) {
    was <= now && queue == queued + now[|was|..]
  }

  /** One slot of the drain. */
  lemma DrainNext(s: Port, j: nat)
    requires j < SLOTS
    ensures DrainFrom(s, j) == if !Pending(s.w, j) then DrainFrom(s, j + 1)
                               else if s.room == 0 then s else DrainFrom(Emit(s, j), j + 1)
    ensures StopsAt(s, j) == if !Pending(s.w, j) then StopsAt(s, j + 1)
                             else if s.room == 0 then j else StopsAt(Emit(s, j), j + 1)
  {
    hide Pending, Emit;
  }

  lemma AllOffered(s: Port)
    ensures DrainFrom(s, SLOTS) == s && StopsAt(s, SLOTS) == SLOTS
  {}

  lemma {:induction false} EmptyWordDrains(s: Port, j: nat)
    requires s.w == 0 && j <= SLOTS
    ensures DrainFrom(s, j) == s && StopsAt(s, j) == SLOTS
    decreases SLOTS - j
  {
    if j < SLOTS {
      assert !Pending(s.w, j);
      EmptyWordDrains(s, j + 1);
    }
  }

  // ---------- one drain ----------

  /** The pending slots from `j` up to `m`, in order. */
  function Ranks(w: bv32, j: nat, m: nat): seq<nat>
    requires j <= m <= SLOTS
    decreases m - j
  {
    if j == m then [] else if Pending(w, j) then [j] + Ranks(w, j + 1, m) else Ranks(w, j + 1, m)
  }

  predicate Ascend(w: bv32, r: seq<nat>, j: nat, m: nat)
    requires m <= SLOTS
  {
    (forall i :: 0 <= i < |r| ==> j <= r[i] < m && Pending(w, r[i]))
    && (forall a, b :: 0 <= a < b < |r| ==> r[a] < r[b])
    && (forall i :: j <= i < m && Pending(w, i) ==> i in r)
  }

  lemma {:induction false} RanksAscend(w: bv32, j: nat, m: nat)
    requires j <= m <= SLOTS
    ensures Ascend(w, Ranks(w, j, m), j, m)
    decreases m - j
  {
    hide Pending, Ascend;
    if j < m {
      RanksAscend(w, j + 1, m);
      AscendBy(w, Ranks(w, j + 1, m), j, m);
    } else {
      AscendNone(w, j, m);
    }
  }

  lemma AscendNone(w: bv32, j: nat, m: nat)
    requires j == m <= SLOTS
    ensures Ascend(w, [], j, m)
  {}

  lemma AscendBy(w: bv32, t: seq<nat>, j: nat, m: nat)
    requires j < m <= SLOTS && Ascend(w, t, j + 1, m)
    ensures Ascend(w, if Pending(w, j) then [j] + t else t, j, m)
  {
    hide Pending;
    if Pending(w, j) {
      var r := [j] + t;
      forall i | j <= i < m && Pending(w, i) ensures i in r {
        if i == j { assert r[0] == j; } else { assert i in t; }
      }
    }
  }

  function EventsAt(cells: map<Index, bv32>, ranks: seq<nat>): seq<Event>
    requires forall i :: 0 <= i < |ranks| ==> ranks[i] < SLOTS
  {
    seq(|ranks|, i requires 0 <= i < |ranks| => EventAt(cells, ranks[i]))
  }

  lemma SlotsDiffer(i: nat, j: nat)
    requires i < SLOTS && j < SLOTS
    ensures SlotParam(i) == SlotParam(j) && SlotKind(i) == SlotKind(j) <==> i == j
  {}

  lemma ClearedSlot(w: bv32, j: nat, i: nat)
    requires i < SLOTS && j < SLOTS
    ensures Pending(Cleared(w, SlotParam(j), SlotKind(j)), i) <==> i != j && Pending(w, i)
  {
    WordIsASet(w, SlotParam(j), SlotKind(j), SlotParam(i), SlotKind(i));
    SlotsDiffer(i, j);
  }

  lemma {:induction false} RanksAgree(v: bv32, w: bv32, j: nat, m: nat)
    requires j <= m <= SLOTS && forall i :: j <= i < m ==> (Pending(v, i) <==> Pending(w, i))
    ensures Ranks(v, j, m) == Ranks(w, j, m)
    decreases m - j
  {
    hide Pending;
    if j < m { RanksAgree(v, w, j + 1, m); }
  }

  /** `d` is what a drain of `s` from slot `j` leaves when it stops at slot `m`. */
  predicate IsCut(s: Port, j: nat, d: Port, m: nat)
    requires j <= SLOTS
  {
    j <= m <= SLOTS && d.cells == s.cells
    && (forall i :: 0 <= i < |Ranks(s.w, j, m)| ==> Ranks(s.w, j, m)[i] < SLOTS)
    && d.out == s.out + EventsAt(s.cells, Ranks(s.w, j, m))
    && (forall i :: 0 <= i < SLOTS ==> (Pending(d.w, i) <==> Pending(s.w, i) && !(j <= i < m)))
    && d.room + |Ranks(s.w, j, m)| == s.room
    && (m < SLOTS ==> d.room == 0 && Pending(d.w, m))
  }

  /** For every word and every refusal point: a drain emits exactly the pending slots before
      the first refusal, each once and in order; a slot is pending afterwards exactly when it
      was pending before and not emitted; and it stops early only on a full queue, with the
      refused slot still pending. */
  lemma {:induction false} DrainIsACut(s: Port, j: nat)
    requires j <= SLOTS
    ensures IsCut(s, j, DrainFrom(s, j), StopsAt(s, j))
    decreases SLOTS - j
  {
    hide Pending, Emit, IsCut;
    if j < SLOTS {
      if !Pending(s.w, j) {
        DrainIsACut(s, j + 1);
        SkippedCut(s, j, DrainFrom(s, j), StopsAt(s, j));
      } else if s.room > 0 {
        DrainIsACut(Emit(s, j), j + 1);
        EmittedCut(s, j, DrainFrom(s, j), StopsAt(s, j));
      } else {
        NoCut(s, j);
      }
    } else {
      NoCut(s, j);
    }
  }

  lemma NoCut(s: Port, j: nat)
    requires j <= SLOTS && (j < SLOTS ==> s.room == 0 && Pending(s.w, j))
    ensures IsCut(s, j, s, j)
  {
    hide Pending;
    assert s.out + EventsAt(s.cells, []) == s.out;
  }

  lemma SkippedCut(s: Port, j: nat, d: Port, m: nat)
    requires j < SLOTS && !Pending(s.w, j) && IsCut(s, j + 1, d, m)
    ensures IsCut(s, j, d, m)
  {
    hide Pending;
    assert Ranks(s.w, j, m) == Ranks(s.w, j + 1, m);
  }

  lemma EmittedCut(s: Port, j: nat, d: Port, m: nat)
    requires j < SLOTS && Pending(s.w, j) && s.room > 0 && IsCut(Emit(s, j), j + 1, d, m)
    ensures IsCut(s, j, d, m)
  {
    hide Pending, EventAt, Cleared, Ranks;
    var e := Emit(s, j);
    forall i | 0 <= i < SLOTS ensures Pending(e.w, i) <==> i != j && Pending(s.w, i) { ClearedSlot(s.w, j, i); }
    RanksAgree(e.w, s.w, j + 1, m);
    FirstRank(s.w, j, m);
    var tail := Ranks(s.w, j + 1, m);
    assert EventsAt(s.cells, [j] + tail) == [EventAt(s.cells, j)] + EventsAt(s.cells, tail);
  }

  lemma FirstRank(w: bv32, j: nat, m: nat)
    requires j < m <= SLOTS && Pending(w, j)
    ensures Ranks(w, j, m) == [j] + Ranks(w, j + 1, m)
  {
    hide Pending;
  }

  /** Room for every slot empties all eight parameters. */
  lemma FullDrainEmpties(s: Port)
    requires s.room >= SLOTS
    ensures StopsAt(s, 0) == SLOTS && forall i :: 0 <= i < SLOTS ==> !Pending(DrainFrom(s, 0).w, i)
  {
    hide Pending, Ranks;
    DrainIsACut(s, 0);
    var m := StopsAt(s, 0);
    RanksAscend(s.w, 0, m);
    RankCount(Ranks(s.w, 0, m), 0, m);
  }

  lemma {:induction false} RankCount(r: seq<nat>, lo: nat, hi: nat)
    requires lo <= hi && forall i :: 0 <= i < |r| ==> lo <= r[i] < hi
    requires forall a, b :: 0 <= a < b < |r| ==> r[a] < r[b]
    ensures |r| <= hi - lo
    decreases |r|
  {
    if r != [] {
      var n := |r| - 1;
      RankCount(r[..n], lo, r[n]);
    }
  }

  // ---------- streams ----------

  function Kinds(out: seq<Event>, p: Index): seq<Kind> {
    if out == [] then []
    else
      var n := |out| - 1;
      Kinds(out[..n], p) + (if out[n].param == p then [out[n].kind] else [])
  }

  /** A prefix of (begin value* end)*: it starts with a begin, and a begin comes exactly after
      an end. */
  predicate LegalKinds(ks: seq<Kind>) {
    (ks != [] ==> ks[0].Begin?) && forall i :: 0 < i < |ks| ==> (ks[i].Begin? <==> ks[i - 1].End?)
  }

  predicate IsOpen(ks: seq<Kind>) { ks != [] && !ks[|ks| - 1].End? }

  predicate LegalStream(out: seq<Event>, p: Index) { LegalKinds(Kinds(out, p)) }

  function LastRaw(out: seq<Event>, p: Index): Option<bv32> {
    if out == [] then None
    else
      var n := |out| - 1;
      if out[n].param == p && out[n].kind.Changed? then Some(out[n].raw) else LastRaw(out[..n], p)
  }

  lemma LastEvent(out: seq<Event>, e: Event, p: Index)
    ensures Kinds(out + [e], p) == Kinds(out, p) + (if e.param == p then [e.kind] else [])
    ensures LastRaw(out + [e], p) == if e.param == p && e.kind.Changed? then Some(e.raw) else LastRaw(out, p)
  {
    assert (out + [e])[..|out|] == out;
  }

  lemma LegalStep(ks: seq<Kind>, k: Kind)
    ensures LegalKinds(ks + [k]) <==> LegalKinds(ks) && (k.Begin? <==> !IsOpen(ks))
  {
    var all := ks + [k];
    if LegalKinds(all) {
      if ks != [] {
        assert all[0] == ks[0];
        assert all[|ks|].Begin? <==> all[|ks| - 1].End?;
      }
      forall i | 0 < i < |ks| ensures ks[i].Begin? <==> ks[i - 1].End? {
        assert all[i].Begin? <==> all[i - 1].End?;
      }
    }
  }

  /** What the pending bits of one parameter will add to its stream. */
  function Due(b: bool, c: bool, e: bool): seq<Kind> {
    (if b then [Begin] else []) + (if c then [Changed] else []) + (if e then [End] else [])
  }

  function DueOf(w: bv32, p: Index): seq<Kind> { Due(Has(w, p, Begin), Has(w, p, Changed), Has(w, p, End)) }

  /** What the host has been told about a parameter, and what it is still due. */
  function Told(s: State, p: Index): seq<Kind> { Kinds(s.out, p) + DueOf(s.w, p) }

  lemma DueMeans(ks: seq<Kind>, b: bool, c: bool, e: bool)
    ensures LegalKinds(ks + Due(b, c, e))
            <==> LegalKinds(ks) && (b ==> !IsOpen(ks)) && (c || e ==> b || IsOpen(ks))
    ensures LegalKinds(ks + Due(b, c, e)) ==> (IsOpen(ks + Due(b, c, e)) <==> !e && (b || IsOpen(ks)))
  {
    hide LegalKinds;
    var k1 := ks + (if b then [Begin] else []);
    var k2 := k1 + (if c then [Changed] else []);
    LegalStep(ks, Begin);
    LegalStep(k1, Changed);
    LegalStep(k2, End);
    assert !b ==> k1 == ks;
    assert !c ==> k2 == k1;
    assert ks + Due(b, c, e) == k2 + (if e then [End] else []);
    assert !e ==> ks + Due(b, c, e) == k2;
  }

  // ---------- a drain tells what is due ----------

  /** Emitting a slot none of whose parameter's earlier slots is pending. */
  lemma EmitTells(s: State, room: nat, j: nat, p: Index)
    requires j < SLOTS && room > 0 && Pending(s.w, j) && forall i :: 0 <= i < j ==> !Pending(s.w, i)
    ensures Told(WithPort(s, Emit(PortOf(s, room), j)), p) == Told(s, p)
  {
    hide Has, Set, Cleared, Kinds;
    var e := EventAt(s.cells, j);
    WordIsASet(s.w, SlotParam(j), SlotKind(j), p, Begin);
    WordIsASet(s.w, SlotParam(j), SlotKind(j), p, Changed);
    WordIsASet(s.w, SlotParam(j), SlotKind(j), p, End);
    LastEvent(s.out, e, p);
    if e.param == p {
      EarlierOfSameParam(j);
      if e.kind.Changed? {
        assert !Pending(s.w, j - 1);
      } else if e.kind.End? {
        assert !Pending(s.w, j - 1) && !Pending(s.w, j - 2);
      }
    } else {
      assert Kinds(s.out + [e], p) == Kinds(s.out, p);
    }
  }

  lemma EarlierOfSameParam(j: nat)
    requires j < SLOTS
    ensures SlotKind(j).Changed? ==> j >= 1 && SlotParam(j - 1) == SlotParam(j) && SlotKind(j - 1).Begin?
    ensures SlotKind(j).End? ==>
              j >= 2 && SlotParam(j - 1) == SlotParam(j) == SlotParam(j - 2)
              && SlotKind(j - 1).Changed? && SlotKind(j - 2).Begin?
  {}

  /** Wherever it is refused, a drain only moves events from what is due to what is told. */
  lemma {:induction false} DrainTells(s: State, room: nat, j: nat, p: Index)
    requires j <= SLOTS && forall i :: 0 <= i < j ==> !Pending(s.w, i)
    ensures Told(WithPort(s, DrainFrom(PortOf(s, room), j)), p) == Told(s, p)
    decreases SLOTS - j
  {
    hide Told, Pending, Cleared, EventAt;
    var port := PortOf(s, room);
    if j < SLOTS {
      if !Pending(s.w, j) {
        DrainTells(s, room, j + 1, p);
      } else if room > 0 {
        EmitTells(s, room, j, p);
        var t := WithPort(s, Emit(port, j));
        forall i | 0 <= i < j + 1 ensures !Pending(t.w, i) { ClearedSlot(s.w, j, i); }
        assert PortOf(t, room - 1) == Emit(port, j);
        DrainTells(t, room - 1, j + 1, p);
        DrainSetsPort(s, t, Emit(port, j), j + 1);
      } else {
        assert WithPort(s, port) == s;
      }
    } else {
      assert WithPort(s, port) == s;
    }
  }

  lemma DrainSetsPort(s: State, t: State, e: Port, j: nat)
    requires t == WithPort(s, e) && j <= SLOTS
    ensures WithPort(t, DrainFrom(e, j)) == WithPort(s, DrainFrom(e, j))
  {}

  function FirstSlot(p: Index): (j: nat)
    requires p != ActiveModel
    ensures j <= SLOTS - 3 && j % 3 == 0 && SlotParam(j) == p == SlotParam(j + 1) == SlotParam(j + 2)
  {
    match p
    case InputGain => 0
    case OutputGain => 3
    case GateThresh => 6
    case Bypass => 9
    case AdaptiveCompute => 12
    case Slim => 15
    case Oversample => 18
    case Precision => 21
  }

  lemma NothingLeft(w: bv32, p: Index)
    requires p != ActiveModel && forall i :: 0 <= i < SLOTS ==> !Pending(w, i)
    ensures !Has(w, p, Begin) && !Has(w, p, Changed) && !Has(w, p, End)
  {
    hide Has, SlotParam;
    var j := FirstSlot(p);
    assert !Pending(w, j) && !Pending(w, j + 1) && !Pending(w, j + 2);
  }

  predicate Quiet(s: State, p: Index) { !Has(s.w, p, Begin) && !Has(s.w, p, Changed) && !Has(s.w, p, End) }

  /** A drain with room for everything tells the host exactly what is due, and nothing stays
      pending for the parameter. */
  lemma FullDrain(s: State, p: Index)
    requires p != ActiveModel
    ensures var d := Apply(s, Drain(SLOTS));
            Kinds(d.out, p) == Told(s, p) && DueOf(d.w, p) == []
            && Quiet(d, p)
  {
    hide Has, Kinds, DrainFrom, StopsAt, SlotParam;
    DrainTells(s, SLOTS, 0, p);
    FullDrainEmpties(PortOf(s, SLOTS));
    NothingLeft(DrainFrom(PortOf(s, SLOTS), 0).w, p);
    var d := Apply(s, Drain(SLOTS));
    assert Told(d, p) == Kinds(d.out, p);
  }

  // ---------- which steps keep streams legal ----------

  /** Told and due together are legal, and open exactly when the GUI has a gesture open. */
  predicate InStep(s: State, p: Index) {
    LegalKinds(Told(s, p)) && (p in s.open <==> IsOpen(Told(s, p)))
  }

  /** A GUI that begins, changes and ends in that order, and does not begin a gesture whose
      previous end still waits. */
  predicate Orderly(s: State, a: Act) {
    match a
    case BeginGesture(p) => p !in s.open && !Has(s.w, p, End)
    case MarkChanged(p) => p in s.open
    case EndGesture(p) => p in s.open
    case _ => true
  }

  predicate OrderlyRun(s: State, acts: seq<Act>)
    decreases |acts|
  {
    acts == [] || (Orderly(s, acts[0]) && OrderlyRun(Apply(s, acts[0]), acts[1..]))
  }

  /** What the bitmap absorbs.  A begin on an open gesture is harmless as long as the first begin
      still waits, a begin on a closed one unless its end still waits; a change or an end needs an
      open gesture or an end that still waits. */
  predicate Tolerated(s: State, a: Act, p: Index) {
    match a
    case BeginGesture(q) => q == p ==> if p in s.open then Has(s.w, p, Begin) else !Has(s.w, p, End)
    case MarkChanged(q) => q == p ==> p in s.open || Has(s.w, p, End)
    case EndGesture(q) => q == p ==> p in s.open || Has(s.w, p, End)
    case _ => true
  }

  predicate ToleratedRun(s: State, acts: seq<Act>, p: Index)
    decreases |acts|
  {
    acts == [] || (Tolerated(s, acts[0], p) && ToleratedRun(Apply(s, acts[0]), acts[1..], p))
  }

  /** Exactly the tolerated steps keep the streams in step. */
  lemma StepKeeps(s: State, a: Act, p: Index)
    requires InStep(s, p)
    ensures InStep(Apply(s, a), p) <==> Tolerated(s, a, p)
  {
    hide InStep, Told, Apply;
    match a {
      case BeginGesture(q) => GuiStep(s, q, Begin, p);
      case MarkChanged(q) => GuiStep(s, q, Changed, p);
      case EndGesture(q) => GuiStep(s, q, End, p);
      case StoreRaw(q, raw) => StoreInStep(s, q, raw, p);
      case Drain(room) => DrainInStep(s, room, p);
    }
  }

  lemma StoreInStep(s: State, q: Index, raw: bv32, p: Index)
    ensures InStep(Apply(s, StoreRaw(q, raw)), p) == InStep(s, p)
  {
    hide LegalKinds, IsOpen, DueOf, Kinds;
  }

  lemma DrainInStep(s: State, room: nat, p: Index)
    ensures InStep(Apply(s, Drain(room)), p) == InStep(s, p)
  {
    hide LegalKinds, IsOpen, Told, DrainFrom;
    DrainTells(s, room, 0, p);
  }

  function GuiAct(p: Index, k: Kind): Act {
    match k case Begin => BeginGesture(p) case Changed => MarkChanged(p) case End => EndGesture(p)
  }

  lemma BitsAfter(w: bv32, q: Index, k: Kind, p: Index)
    ensures var v := Set(w, q, k);
            (Has(v, p, Begin) <==> Has(w, p, Begin) || (p == q && k.Begin?))
            && (Has(v, p, Changed) <==> Has(w, p, Changed) || (p == q && k.Changed?))
            && (Has(v, p, End) <==> Has(w, p, End) || (p == q && k.End?))
  {
    hide Has, Set, Cleared;
    WordIsASet(w, q, k, p, Begin);
    WordIsASet(w, q, k, p, Changed);
    WordIsASet(w, q, k, p, End);
  }

  /** In step, in terms of the pending bits and of what was told. */
  predicate Matched(ks: seq<Kind>, b: bool, c: bool, e: bool, open: bool) {
    LegalKinds(ks) && (b ==> !IsOpen(ks)) && (c || e ==> b || IsOpen(ks)) && (open <==> !e && (b || IsOpen(ks)))
  }

  lemma InStepMeans(s: State, p: Index)
    ensures InStep(s, p)
            <==> Matched(Kinds(s.out, p), Has(s.w, p, Begin), Has(s.w, p, Changed), Has(s.w, p, End), p in s.open)
  {
    hide LegalKinds, IsOpen, Due, Has, Kinds;
    DueMeans(Kinds(s.out, p), Has(s.w, p, Begin), Has(s.w, p, Changed), Has(s.w, p, End));
  }

  lemma GuiStep(s: State, q: Index, k: Kind, p: Index)
    requires InStep(s, p)
    ensures InStep(Apply(s, GuiAct(q, k)), p) <==> Tolerated(s, GuiAct(q, k), p)
  {
    hide Has, Set, LegalKinds, Kinds, IsOpen, InStep;
    BitsAfter(s.w, q, k, p);
    InStepMeans(s, p);
    InStepMeans(Apply(s, GuiAct(q, k)), p);
    assert Apply(s, GuiAct(q, k)).w == Set(s.w, q, k) && Apply(s, GuiAct(q, k)).out == s.out;
  }

  lemma InStepIsLegal(s: State, p: Index)
    requires InStep(s, p)
    ensures LegalStream(s.out, p)
  {
    hide LegalKinds, Has, Kinds, InStep;
    InStepMeans(s, p);
  }

  lemma {:induction false} ToleratedKeeps(s: State, acts: seq<Act>, p: Index)
    requires InStep(s, p) && ToleratedRun(s, acts, p)
    ensures InStep(After(s, acts), p)
    decreases |acts|
  {
    hide InStep, Tolerated, Apply;
    if acts != [] {
      StepKeeps(s, acts[0], p);
      ToleratedKeeps(Apply(s, acts[0]), acts[1..], p);
    }
  }

  lemma StartsInStep(p: Index)
    ensures InStep(START, p)
  {
    assert !Has(0, p, Begin) && !Has(0, p, Changed) && !Has(0, p, End);
  }

  /** Every run of GUI steps and drains with arbitrary refusals in which each step on a parameter is
      tolerated: what the host is told about it is a prefix of (begin value* end)*. */
  lemma StreamsAreLegal(acts: seq<Act>, p: Index)
    requires ToleratedRun(START, acts, p)
    ensures LegalStream(After(START, acts).out, p)
  {
    StartsInStep(p);
    ToleratedKeeps(START, acts, p);
    InStepIsLegal(After(START, acts), p);
  }

  lemma {:induction false} OrderlyIsTolerated(s: State, acts: seq<Act>, p: Index)
    requires OrderlyRun(s, acts)
    ensures ToleratedRun(s, acts, p)
    decreases |acts|
  {
    hide Apply, Has;
    if acts != [] { OrderlyIsTolerated(Apply(s, acts[0]), acts[1..], p); }
  }

  /** Every way an orderly GUI and any queue can go on keeps the stream of `p` legal. */
  ghost predicate StaysLegal(s: State, p: Index) {
    forall more: seq<Act> :: OrderlyRun(s, more) ==> LegalStream(After(s, more).out, p)
  }

  lemma StaysOn(s: State, a: Act, p: Index)
    requires StaysLegal(s, p) && Orderly(s, a)
    ensures StaysLegal(Apply(s, a), p)
  {
    hide Apply, Orderly, LegalStream;
    forall more: seq<Act> | OrderlyRun(Apply(s, a), more) ensures LegalStream(After(Apply(s, a), more).out, p) {
      assert ([a] + more)[1..] == more;
      assert OrderlyRun(s, [a] + more) && After(s, [a] + more) == After(Apply(s, a), more);
    }
  }

  lemma LegalNow(s: State, p: Index)
    requires StaysLegal(s, p)
    ensures LegalStream(s.out, p)
  {
    hide LegalStream;
    assert OrderlyRun(s, []) && After(s, []) == s;
  }

  lemma AlwaysOrderly(s: State)
    ensures Orderly(s, Drain(SLOTS))
  {}

  /** After one more step and a full drain, what was told and what that step adds is legal. */
  lemma LegalNext(d: State, k: Kind, p: Index)
    requires p != ActiveModel && StaysLegal(d, p) && Orderly(d, GuiAct(p, k)) && Quiet(d, p)
    ensures LegalKinds(Kinds(d.out, p) + Due(k.Begin?, k.Changed?, k.End?))
  {
    hide StaysLegal, Has, LegalKinds, Kinds, Apply, Orderly;
    var t := Apply(d, GuiAct(p, k));
    DueOne(d, k, p);
    AlwaysOrderly(t);
    StaysOn(d, GuiAct(p, k), p);
    StaysOn(t, Drain(SLOTS), p);
    LegalNow(Apply(t, Drain(SLOTS)), p);
    FullDrain(t, p);
    assert Due(k.Begin?, k.Changed?, k.End?) == [k];
    assert Told(t, p) == Kinds(d.out, p) + [k];
  }

  /** The streams can stay legal exactly when they are in step. */
  lemma InStepExactly(s: State, p: Index)
    requires p != ActiveModel
    ensures StaysLegal(s, p) <==> InStep(s, p)
  {
    hide StaysLegal, Has, LegalKinds, Kinds, DrainFrom, Due, IsOpen;
    if StaysLegal(s, p) {
      var d := Apply(s, Drain(SLOTS));
      StaysOn(s, Drain(SLOTS), p);
      FullDrain(s, p);
      LegalNow(d, p);
      var ks := Kinds(d.out, p);
      if p in d.open {
        LegalNext(d, End, p);
        DueMeans(ks, false, false, true);
      } else {
        LegalNext(d, Begin, p);
        DueMeans(ks, true, false, false);
      }
    }
    if InStep(s, p) { InStepStays(s, p); }
  }

  lemma InStepStays(s: State, p: Index)
    requires InStep(s, p)
    ensures StaysLegal(s, p)
  {
    hide InStep, LegalStream;
    forall more: seq<Act> | OrderlyRun(s, more) ensures LegalStream(After(s, more).out, p) {
      OrderlyIsTolerated(s, more, p);
      ToleratedKeeps(s, more, p);
      InStepIsLegal(After(s, more), p);
    }
  }

  /** The exact condition for each step, open gesture or not: it leaves the stream legal under every
      orderly continuation and every refusal if and only if it is tolerated. */
  lemma ActionIsSafe(s: State, a: Act, p: Index)
    requires p != ActiveModel && StaysLegal(s, p)
    ensures StaysLegal(Apply(s, a), p) <==> Tolerated(s, a, p)
  {
    hide StaysLegal, InStep, Tolerated, Apply;
    InStepExactly(s, p);
    InStepExactly(Apply(s, a), p);
    StepKeeps(s, a, p);
  }

  /** At every point of the run the stream can still stay legal. */
  ghost predicate SafeThroughout(s: State, acts: seq<Act>, p: Index)
    decreases |acts|
  {
    StaysLegal(s, p) && (acts == [] || SafeThroughout(Apply(s, acts[0]), acts[1..], p))
  }

  lemma {:induction false} SafeExactly(s: State, acts: seq<Act>, p: Index)
    requires p != ActiveModel && StaysLegal(s, p)
    ensures SafeThroughout(s, acts, p) <==> ToleratedRun(s, acts, p)
    decreases |acts|
  {
    hide StaysLegal, Tolerated, Apply;
    if acts != [] {
      ActionIsSafe(s, acts[0], p);
      if Tolerated(s, acts[0], p) { SafeExactly(Apply(s, acts[0]), acts[1..], p); }
    }
  }

  /** The exact condition over runs: the stream of a parameter is at every point legal and can still
      stay so if and only if each step on it is tolerated. */
  lemma RunsAreSafeExactly(acts: seq<Act>, p: Index)
    requires p != ActiveModel
    ensures SafeThroughout(START, acts, p) <==> ToleratedRun(START, acts, p)
  {
    hide StaysLegal, InStep;
    StartsInStep(p);
    InStepExactly(START, p);
    SafeExactly(START, acts, p);
  }

  /** The knob's wheel handler begins and ends a gesture of its own. */
  function Press(p: Index): seq<Act> { [BeginGesture(p), Drain(SLOTS)] }

  function Wheel(p: Index, raw: bv32): seq<Act> {
    [BeginGesture(p), StoreRaw(p, raw), MarkChanged(p), EndGesture(p), Drain(SLOTS)]
  }

  function Release(p: Index): seq<Act> { [EndGesture(p), Drain(SLOTS)] }

  lemma {:induction false} AfterConcat(s: State, a: seq<Act>, b: seq<Act>)
    ensures After(s, a + b) == After(After(s, a), b)
    decreases |a|
  {
    hide Apply;
    if a == [] {
      assert a + b == b;
    } else {
      assert (a + b)[0] == a[0] && (a + b)[1..] == a[1..] + b;
      AfterConcat(Apply(s, a[0]), a[1..], b);
    }
  }

  lemma AfterNext(s: State, a: Act, rest: seq<Act>)
    ensures After(s, [a] + rest) == After(Apply(s, a), rest)
  {
    assert ([a] + rest)[1..] == rest;
  }

  lemma AfterTwo(s: State, a: Act, b: Act)
    ensures After(s, [a, b]) == Apply(Apply(s, a), b)
  {
    hide Apply;
    AfterNext(s, a, [b]);
    AfterNext(Apply(s, a), b, []);
    assert [a] + [b] == [a, b] && [b] + [] == [b];
  }

  /** With nothing pending, one call and a full drain tell the host exactly that. */
  lemma TellsOne(s: State, k: Kind, p: Index)
    requires p != ActiveModel && Quiet(s, p)
    ensures var d := After(s, [GuiAct(p, k), Drain(SLOTS)]);
            Kinds(d.out, p) == Kinds(s.out, p) + [k] && Quiet(d, p)
  {
    hide Has, Set, Kinds, Apply, After, Due;
    var t := Apply(s, GuiAct(p, k));
    AfterTwo(s, GuiAct(p, k), Drain(SLOTS));
    DueOne(s, k, p);
    FullDrain(t, p);
  }

  lemma DueOne(s: State, k: Kind, p: Index)
    requires Quiet(s, p)
    ensures var t := Apply(s, GuiAct(p, k)); DueOf(t.w, p) == [k] && t.out == s.out
  {
    hide Has, Set;
    BitsAfter(s.w, p, k, p);
    assert Apply(s, GuiAct(p, k)).w == Set(s.w, p, k);
  }

  lemma TellsWheel(s: State, p: Index, raw: bv32)
    requires p != ActiveModel && Quiet(s, p)
    ensures var d := After(s, Wheel(p, raw)); Kinds(d.out, p) == Kinds(s.out, p) + [Begin, Changed, End] && Quiet(d, p)
  {
    hide Has, Set, Kinds, DrainFrom;
    var s1 := Apply(s, BeginGesture(p));
    var s2 := Apply(s1, StoreRaw(p, raw));
    var s3 := Apply(s2, MarkChanged(p));
    var s4 := Apply(s3, EndGesture(p));
    assert Wheel(p, raw) == [BeginGesture(p)] + ([StoreRaw(p, raw)] + ([MarkChanged(p)] + [EndGesture(p), Drain(SLOTS)]));
    AfterNext(s, BeginGesture(p), [StoreRaw(p, raw)] + ([MarkChanged(p)] + [EndGesture(p), Drain(SLOTS)]));
    AfterNext(s1, StoreRaw(p, raw), [MarkChanged(p)] + [EndGesture(p), Drain(SLOTS)]);
    AfterNext(s2, MarkChanged(p), [EndGesture(p), Drain(SLOTS)]);
    AfterTwo(s3, EndGesture(p), Drain(SLOTS));
    AllThreeBits(s.w, p);
    FullDrain(s4, p);
  }

  lemma AllThreeBits(w: bv32, p: Index)
    ensures DueOf(Set(Set(Set(w, p, Begin), p, Changed), p, End), p) == [Begin, Changed, End]
  {
    hide Has, Set;
    BitsAfter(w, p, Begin, p);
    BitsAfter(Set(w, p, Begin), p, Changed, p);
    BitsAfter(Set(Set(w, p, Begin), p, Changed), p, End, p);
  }

  /** Turning the wheel while the knob is held, with a drain between the calls, tells the host two
      begins and two ends. */
  lemma WheelBreaksStream(p: Index, raw: bv32)
    requires p != ActiveModel
    ensures var s := After(START, Press(p) + Wheel(p, raw) + Release(p));
            Kinds(s.out, p) == [Begin, Begin, Changed, End, End] && !LegalStream(s.out, p)
  {
    hide Apply, After, Kinds, Quiet, Wheel;
    EmptyWord(p);
    TellsOne(START, Begin, p);
    var held := After(START, Press(p));
    TellsWheel(held, p, raw);
    var turned := After(held, Wheel(p, raw));
    TellsOne(turned, End, p);
    AfterConcat(START, Press(p), Wheel(p, raw));
    AfterConcat(START, Press(p) + Wheel(p, raw), Release(p));
    var ks := [Begin, Begin, Changed, End, End];
    assert [] + [Begin] + [Begin, Changed, End] + [End] == ks;
    assert ks[1].Begin? && !ks[0].End?;
  }

  lemma EmptyWord(p: Index)
    ensures Quiet(START, p) && Kinds(START.out, p) == []
  {
    assert !Has(0, p, Begin) && !Has(0, p, Changed) && !Has(0, p, End);
  }

  // ---------- values ----------

  /** Once no change is pending, the host knows the stored value. */
  predicate ValueTold(s: State, p: Index) {
    p in s.cells && p !in s.owing && !Has(s.w, p, Changed) ==> LastRaw(s.out, p) == Some(s.cells[p])
  }

  lemma EmitTellsValue(s: State, room: nat, j: nat, p: Index)
    requires ValueTold(s, p) && j < SLOTS && room > 0 && Pending(s.w, j)
    ensures ValueTold(WithPort(s, Emit(PortOf(s, room), j)), p)
  {
    hide Has, Set, Cleared, LastRaw, Kinds, SlotParam;
    WordIsASet(s.w, SlotParam(j), SlotKind(j), p, Changed);
    LastEvent(s.out, EventAt(s.cells, j), p);
  }

  lemma {:induction false} DrainTellsValue(s: State, room: nat, j: nat, p: Index)
    requires ValueTold(s, p) && j <= SLOTS
    ensures ValueTold(WithPort(s, DrainFrom(PortOf(s, room), j)), p)
    decreases SLOTS - j
  {
    hide ValueTold, Pending, Cleared, EventAt;
    var port := PortOf(s, room);
    assert WithPort(s, port) == s;
    if j < SLOTS {
      if !Pending(s.w, j) {
        DrainTellsValue(s, room, j + 1, p);
      } else if room > 0 {
        EmitTellsValue(s, room, j, p);
        var t := WithPort(s, Emit(port, j));
        assert PortOf(t, room - 1) == Emit(port, j);
        DrainTellsValue(t, room - 1, j + 1, p);
        DrainSetsPort(s, t, Emit(port, j), j + 1);
      }
    }
  }

  lemma StepTellsValue(s: State, a: Act, p: Index)
    requires ValueTold(s, p)
    ensures ValueTold(Apply(s, a), p)
  {
    hide Has, Set, LastRaw, DrainFrom;
    match a {
      case BeginGesture(q) => WordIsASet(s.w, q, Begin, p, Changed);
      case MarkChanged(q) => WordIsASet(s.w, q, Changed, p, Changed);
      case EndGesture(q) => WordIsASet(s.w, q, End, p, Changed);
      case StoreRaw(_, _) =>
      case Drain(room) => DrainTellsValue(s, room, 0, p);
    }
  }

  /** Over every run whatever, once a change has been marked and drained, the last value the host
      was told is the last one the GUI stored. */
  lemma {:induction false} LastValueIsTold(s: State, acts: seq<Act>, p: Index)
    requires ValueTold(s, p)
    ensures ValueTold(After(s, acts), p)
    decreases |acts|
  {
    hide ValueTold, Apply;
    if acts != [] {
      StepTellsValue(s, acts[0], p);
      LastValueIsTold(Apply(s, acts[0]), acts[1..], p);
    }
  }

  /** The last value the GUI stored along the run. */
  function LastStored(acts: seq<Act>, p: Index): Option<bv32>
    decreases |acts|
  {
    if acts == [] then None
    else
      var n := |acts| - 1;
      if acts[n].StoreRaw? && acts[n].p == p then Some(acts[n].raw) else LastStored(acts[..n], p)
  }

  /** ... and whether it has been marked since. */
  predicate MarkedSince(acts: seq<Act>, p: Index)
    decreases |acts|
  {
    acts != []
    && var last := acts[|acts| - 1];
       last == MarkChanged(p) || (!(last.StoreRaw? && last.p == p) && MarkedSince(acts[..|acts| - 1], p))
  }

  lemma {:induction false} StoredRun(acts: seq<Act>, p: Index)
    ensures var s := After(START, acts);
            (if p in s.cells then Some(s.cells[p]) else None) == LastStored(acts, p)
            && (p in s.owing ==> !MarkedSince(acts, p))
    decreases |acts|
  {
    hide DrainFrom, Set;
    if acts != [] {
      var n := |acts| - 1;
      StoredRun(acts[..n], p);
      assert acts[..n] + [acts[n]] == acts;
      AfterConcat(START, acts[..n], [acts[n]]);
      assert [acts[n]][1..] == [];
      assert After(Apply(After(START, acts[..n]), acts[n]), []) == Apply(After(START, acts[..n]), acts[n]);
    }
  }

  /** Over every run from the start, whatever its gestures and refusals: once the last value the GUI
      stored has been marked and its bit drained, it is the last value the host was told. */
  lemma HostKnowsLastStored(acts: seq<Act>, p: Index)
    requires MarkedSince(acts, p) && !Has(After(START, acts).w, p, Changed) && LastStored(acts, p).Some?
    ensures LastRaw(After(START, acts).out, p) == LastStored(acts, p)
  {
    hide Has, LastRaw, After, MarkedSince, LastStored;
    StoredRun(acts, p);
    LastValueIsTold(START, acts, p);
  }
}
