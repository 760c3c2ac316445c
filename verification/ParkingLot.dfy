/** The sixteen slots where retired resources wait while the collector's ring is full, and
    the latch that lets a callback skip the sweep. */
module ParkingLot {
  import opened Options
  import opened Payloads

  const SLOTS: nat := 16

  // ---------- specification ----------

  function Occupants(slots: seq<Option<GcItem>>): seq<GcItem> {
    if slots == [] then []
    else (if slots[0].Some? then [slots[0].value] else []) + Occupants(slots[1..])
  }

  /** What `room` free places take: the first occupants, in slot order. */
  function Taken(slots: seq<Option<GcItem>>, room: nat): seq<GcItem> {
    var all := Occupants(slots);
    if |all| <= room then all else all[..room]
  }

  /** The slots after a sweep with `room` free places. */
  function Swept(slots: seq<Option<GcItem>>, room: nat): seq<Option<GcItem>> {
    if slots == [] then []
    else if slots[0].None? then [None] + Swept(slots[1..], room)
    else if room == 0 then slots
    else [None] + Swept(slots[1..], room - 1)
  }

  // ---------- the code ----------

  class Collector {
    const capacity: nat
    var items: seq<GcItem>

    constructor (capacity: nat)
      ensures this.capacity == capacity && items == []
    {
      this.capacity := capacity;
      items := [];
    }

    method Push(x: GcItem) returns (ok: bool)
      modifies this
      ensures ok == (|old(items)| < capacity) && items == if ok then old(items) + [x] else old(items)
    {
      ok := |items| < capacity;
      if ok { items := items + [x]; }
    }
  }

  class Lot {
    const slots: array<Option<GcItem>>
    const gcTx: Collector
    var dirty: bool

    /** A clean latch means there is nothing to sweep. */
    ghost predicate Valid()
      reads this, slots, gcTx
    {
      slots.Length == SLOTS && |gcTx.items| <= gcTx.capacity
      && (!dirty ==> forall i :: 0 <= i < SLOTS ==> slots[i].None?)
    }

    ghost function Room(): nat
      requires Valid()
      reads this, slots, gcTx
    {
      gcTx.capacity - |gcTx.items|
    }

    constructor (gcTx: Collector)
      requires |gcTx.items| <= gcTx.capacity
      ensures Valid() && this.gcTx == gcTx && fresh(slots) && !dirty
    {
      slots := new Option<GcItem>[SLOTS](_ => None);
      this.gcTx := gcTx;
      dirty := false;
    }

    /** The retirement cascade parks what the full ring refuses; the caller falls back to the
        overflow buffer when every slot is taken. */
    method Park(x: GcItem) returns (ok: bool)
      requires Valid()
      modifies this, slots
      ensures Valid() && gcTx.items == old(gcTx.items)
      ensures ok == exists i :: 0 <= i < SLOTS && old(slots[i]).None?
      ensures multiset(Occupants(slots[..]))
              == multiset(Occupants(old(slots[..]))) + (if ok then multiset{x} else multiset{})
    {
      hide Occupants;
      ok := false;
      for i := 0 to SLOTS
        invariant slots[..] == old(slots[..]) && gcTx.items == old(gcTx.items) && dirty == old(dirty)
        invariant forall k :: 0 <= k < i ==> slots[k].Some?
      {
        if slots[i].None? {
          FillOne(slots[..], i, x);
          slots[i] := Some(x);
          dirty := true;
          assert slots[..] == old(slots[..])[i := Some(x)];
          return true;
        }
      }
    }

    /** One sweep: as many parked resources as fit move to the ring, in slot order, and the
        latch is cleared exactly when no slot is left occupied. */
    method DrainParkingLot()
      requires Valid()
      modifies this, slots, gcTx
      ensures Valid()
      ensures gcTx.items == old(gcTx.items) + Taken(old(slots[..]), old(Room()))
      ensures slots[..] == Swept(old(slots[..]), old(Room()))
      ensures dirty <==> |Occupants(old(slots[..]))| > old(Room())
    {
      hide Progress, Swept, Occupants, Taken, Blank;
      ghost var was := slots[..];
      ghost var room := Room();
      if !dirty {
        NothingParked(was, room);
        return;
      }
      var anyRemaining := false;
      var i := 0;
      ghost var moved: seq<GcItem> := [];
      ProgressStart(was, room);
      while i < slots.Length
        invariant 0 <= i <= SLOTS && !anyRemaining && dirty
        invariant slots[..] == Blank(i) + was[i..] && Progress(was, room, i, moved)
        invariant gcTx.items == old(gcTx.items) + moved && |moved| <= room
      {
        SlotTaken(was, i);
        assert slots[..][i] == was[i];
        ProgressStep(was, room, i, moved);
        ghost var now := slots[..];
        var taken := slots[i];
        slots[i] := None;
        assert slots[..] == now[i := None];
        if taken.Some? {
          var ok := gcTx.Push(taken.value);
          if !ok {
            slots[i] := taken;
            anyRemaining := true;
            assert slots[..] == now;
            break;
          }
          moved := moved + [taken.value];
        }
        i := i + 1;
      }
      if !anyRemaining {
        ProgressEnd(was, room, moved);
        BlankIsEmpty(SLOTS);
        assert was[SLOTS..] == [];
        assert slots[..] == Blank(SLOTS);
        assert forall k :: 0 <= k < SLOTS ==> slots[k] == slots[..][k];
        dirty := false;
      }
    }
  }

  function Blank(n: nat): seq<Option<GcItem>> { seq(n, _ => None) }

  lemma BlankIsEmpty(n: nat)
    ensures |Blank(n)| == n && forall k :: 0 <= k < n ==> Blank(n)[k].None?
  {}

  lemma SlotTaken(was: seq<Option<GcItem>>, i: nat)
    requires i < |was|
    ensures var now := Blank(i) + was[i..];
            |now| == |was| && now[i] == was[i] && now[i := None] == Blank(i + 1) + was[i + 1..]
  {}

  /** A sweep that has passed the first `i` slots and moved `moved`. */
  ghost predicate Progress(was: seq<Option<GcItem>>, room: nat, i: nat, moved: seq<GcItem>) {
    i <= |was| && |moved| <= room && Occupants(was) == moved + Occupants(was[i..])
    && Swept(was, room) == Blank(i) + Swept(was[i..], room - |moved|)
  }

  lemma ProgressStart(was: seq<Option<GcItem>>, room: nat)
    ensures Progress(was, room, 0, []) && was == Blank(0) + was[0..]
  {
    assert was[0..] == was;
  }

  lemma ProgressStep(was: seq<Option<GcItem>>, room: nat, i: nat, moved: seq<GcItem>)
    requires Progress(was, room, i, moved) && i < |was|
    ensures |moved| <= room
    ensures was[i].None? ==> Progress(was, room, i + 1, moved)
    ensures was[i].Some? && |moved| < room ==> Progress(was, room, i + 1, moved + [was[i].value])
    ensures was[i].Some? && |moved| == room ==>
              Swept(was, room) == Blank(i) + was[i..] && Taken(was, room) == moved && |Occupants(was)| > room
  {
    var left := room - |moved|;
    NextSlot(was, i, left);
    hide Occupants, Swept;
    var rest := was[i + 1..];
    assert Blank(i + 1) == Blank(i) + [None];
    if was[i].None? {
      assert Blank(i) + ([None] + Swept(rest, left)) == Blank(i + 1) + Swept(rest, left);
    } else {
      var v := was[i].value;
      assert moved + ([v] + Occupants(rest)) == moved + [v] + Occupants(rest);
      if left > 0 {
        assert Blank(i) + ([None] + Swept(rest, left - 1)) == Blank(i + 1) + Swept(rest, left - 1);
      }
    }
  }

  lemma NextSlot(was: seq<Option<GcItem>>, i: nat, room: nat)
    requires i < |was|
    ensures Occupants(was[i..]) == (if was[i].Some? then [was[i].value] else []) + Occupants(was[i + 1..])
    ensures was[i].None? ==> Swept(was[i..], room) == [None] + Swept(was[i + 1..], room)
    ensures was[i].Some? && room > 0 ==> Swept(was[i..], room) == [None] + Swept(was[i + 1..], room - 1)
    ensures was[i].Some? && room == 0 ==> Swept(was[i..], room) == was[i..]
  {
    assert was[i..][0] == was[i] && was[i..][1..] == was[i + 1..];
  }

  lemma ProgressEnd(was: seq<Option<GcItem>>, room: nat, moved: seq<GcItem>)
    requires Progress(was, room, |was|, moved)
    ensures Swept(was, room) == Blank(|was|) && Taken(was, room) == moved && |Occupants(was)| <= room
  {
    assert was[|was|..] == [];
  }

  lemma {:induction false} NothingParked(slots: seq<Option<GcItem>>, room: nat)
    requires forall i :: 0 <= i < |slots| ==> slots[i].None?
    ensures Occupants(slots) == Taken(slots, room) == [] && Swept(slots, room) == slots
  {
    if slots != [] { NothingParked(slots[1..], room); }
  }

  lemma {:induction false} FillOne(slots: seq<Option<GcItem>>, i: nat, x: GcItem)
    requires i < |slots| && slots[i].None?
    ensures multiset(Occupants(slots[i := Some(x)])) == multiset(Occupants(slots)) + multiset{x}
  {
    var now := slots[i := Some(x)];
    if i == 0 {
      assert now[1..] == slots[1..];
      assert Occupants(now) == [x] + Occupants(slots);
    } else {
      FillOne(slots[1..], i - 1, x);
      assert now[0] == slots[0] && now[1..] == slots[1..][i - 1 := Some(x)];
    }
  }

  // ---------- what the specification means ----------

  lemma BlankFirst(rest: seq<Option<GcItem>>)
    ensures Occupants([None] + rest) == Occupants(rest)
  {
    assert ([None] + rest)[1..] == rest;
  }

  lemma TakesTheFirst(slots: seq<Option<GcItem>>, room: nat)
    requires slots != [] && slots[0].Some? && room > 0
    ensures Taken(slots, room) == [slots[0].value] + Taken(slots[1..], room - 1)
  {}

  lemma TakesNoneOf(slots: seq<Option<GcItem>>, room: nat)
    requires slots != [] && slots[0].None?
    ensures Taken(slots, room) == Taken(slots[1..], room)
  {}

  lemma NoRoom(slots: seq<Option<GcItem>>)
    ensures Taken(slots, 0) == []
  {}

  /** A sweep only moves: what it takes and what it leaves are what was parked, and it leaves
      something exactly when the ring had too little room. */
  lemma {:induction false} SweepConserves(slots: seq<Option<GcItem>>, room: nat)
    ensures Occupants(slots) == Taken(slots, room) + Occupants(Swept(slots, room))
    ensures |Swept(slots, room)| == |slots|
    ensures Occupants(Swept(slots, room)) == [] <==> |Occupants(slots)| <= room
  {
    hide Occupants, Swept, Taken;
    if slots == [] {
      NothingParked(slots, room);
      return;
    }
    var rest := slots[1..];
    assert slots[0..] == slots;
    NextSlot(slots, 0, room);
    if slots[0].None? {
      TakesNoneOf(slots, room);
      SweepConserves(rest, room);
      BlankFirst(Swept(rest, room));
    } else if room > 0 {
      TakesTheFirst(slots, room);
      SweepConserves(rest, room - 1);
      BlankFirst(Swept(rest, room - 1));
    } else {
      NoRoom(slots);
    }
  }

  /** A sweep is a cut: up to some slot everything is taken, from there on everything stays where it
      was, and it stops early only in front of a resource the ring has no room for. */
  lemma {:induction false} SweepIsACut(slots: seq<Option<GcItem>>, room: nat) returns (k: nat)
    ensures k <= |slots| && Swept(slots, room) == Blank(k) + slots[k..] && Taken(slots, room) == Occupants(slots[..k])
    ensures |Taken(slots, room)| <= room && (k < |slots| ==> slots[k].Some? && |Taken(slots, room)| == room)
  {
    hide Occupants, Swept, Taken;
    k := 0;
    if slots == [] {
      NothingParked(slots, room);
      assert slots[..0] == [] && slots[0..] == slots == Blank(0);
      return;
    }
    assert slots[0..] == slots;
    NextSlot(slots, 0, room);
    if slots[0].Some? && room == 0 {
      NoRoom(slots);
      NothingParked(slots[..0], 0);
      assert Blank(0) + slots == slots;
      return;
    }
    var rest := SweepIsACut(slots[1..], if slots[0].Some? then room - 1 else room);
    k := rest + 1;
    OneMoreSlot(slots, rest);
    if slots[0].Some? { TakesTheFirst(slots, room); } else { TakesNoneOf(slots, room); }
  }

  lemma OneMoreSlot(slots: seq<Option<GcItem>>, rest: nat)
    requires rest < |slots|
    ensures [None] + (Blank(rest) + slots[1..][rest..]) == Blank(rest + 1) + slots[rest + 1..]
    ensures Occupants(slots[..rest + 1])
            == (if slots[0].Some? then [slots[0].value] else []) + Occupants(slots[1..][..rest])
  {
    assert slots[..rest + 1][1..] == slots[1..][..rest];
    hide Occupants;
    assert Blank(rest + 1) == [None] + Blank(rest);
    assert slots[1..][rest..] == slots[rest + 1..];
  }

  /** Repeated sweeps empty the lot in slot order: with nothing parked in between, two sweeps
      do what one sweep with the room of both would. */
  lemma {:induction false} SweepsAddUp(slots: seq<Option<GcItem>>, first: nat, second: nat)
    ensures Taken(slots, first) + Taken(Swept(slots, first), second) == Taken(slots, first + second)
  {
    SweepConserves(slots, first);
    var a, b := Taken(slots, first), Occupants(Swept(slots, first));
    assert a + b == Occupants(slots);
    if |Occupants(slots)| > first {
      assert |a| == first;
    }
  }
}
