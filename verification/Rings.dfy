/** The bounded single-producer single-consumer ring and the atomic counters that
    the command channel is built from. */
module Rings {
  import opened Options
  import opened Payloads

  class Ring {
    const capacity: nat
    var items: seq<Payload>

    constructor (capacity: nat)
      ensures this.capacity == capacity && items == []
    {
      this.capacity := capacity;
      items := [];
    }

    method Push(p: Payload) returns (ok: bool)
      modifies this
      ensures ok == (|old(items)| < capacity)
      ensures items == if ok then old(items) + [p] else old(items)
    {
      ok := |items| < capacity;
      if ok { items := items + [p]; }
    }

    method Pop() returns (r: Option<Payload>)
      modifies this
      ensures r == if old(items) == [] then None else Some(old(items)[0])
      ensures items == if old(items) == [] then [] else old(items)[1..]
    {
      if items == [] { return None; }
      r := Some(items[0]);
      items := items[1..];
    }
  }

  class Counter {
    var value: nat

    constructor (v: nat)
      ensures value == v
    {
      value := v;
    }
  }
}
