/** The in-memory event store: appends and reads are atomic, and it numbers what it is given. */
module MemoryStore {
  import opened State

  function Renumber(from: nat, events: seq<Event>): (r: seq<Event>)
    ensures |r| == |events| && forall i | 0 <= i < |events| :: r[i] == events[i].(seqNo := from + i + 1)
  {
    seq(|events|, i requires 0 <= i < |events| => events[i].(seqNo := from + i + 1))
  }

  class InMemoryEventStore {
    var events: seq<Event>
    /** How many errors the store has reported. */
    ghost var faults: nat

    ghost predicate Valid()
      reads this
    {
      forall i | 0 <= i < |events| :: events[i].seqNo == i + 1
    }

    constructor ()
      ensures Valid() && events == []
    {
      events, faults := [], 0;
    }

    method Append(event: Event) returns (persisted: Event)
      requires Valid()
      modifies this`events
      ensures Valid()
      ensures persisted == event.(seqNo := |old(events)| + 1) && events == old(events) + [persisted]
    {
      persisted := event.(seqNo := |events| + 1);
      events := events + [persisted];
    }

    method ReadFrom(number: nat) returns (r: seq<Event>)
      requires Valid()
      ensures r == if number <= 1 then events else if number > |events| then [] else events[number - 1..]
    {
      r := [];
      for i := 0 to |events|
        invariant r == if number <= 1 then events[..i] else if number > i then [] else events[number - 1..i]
      {
        if events[i].seqNo >= number {
          r := r + [events[i]];
        }
      }
    }

    method LastSeq() returns (r: nat)
      ensures r == |events|
    {
      r := |events|;
    }

    /** Other processes append whatever they like. */
    method Interfere()
      requires Valid()
      modifies this`events
      ensures Valid() && old(events) <= events
    {
      var foreign: seq<Event> := *;
      events := events + Renumber(|events|, foreign);
    }

    /** Any access may report an error. */
    method Fails() returns (fails: bool)
      modifies this`faults
      ensures faults == old(faults) + if fails then 1 else 0
    {
      fails := *;
      if fails { faults := faults + 1; }
    }
  }
}
