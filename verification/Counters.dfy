/**
 RWEventCounter (engine/counter.go): 64-bit totals, and a ring of snapshot objects that
 are overwritten in place once the ring is full. tally is what the counter stands for;
 every method is proved to act on it as Tallies says.
 */
module Counters {
  import opened Options
  import opened Ringers
  import opened Tallies

  class Snapshot {
    var outgoing: nat
    var incoming: nat
    var at: Option<int>
    var duration: int

    function Clone(): Record
      reads this
    {
      Record(outgoing, incoming, at, duration)
    }

    constructor (outgoing: nat, incoming: nat, at: Option<int>, duration: int)
      ensures Clone() == Record(outgoing, incoming, at, duration)
    {
      this.outgoing, this.incoming, this.at, this.duration := outgoing, incoming, at, duration;
    }

    method Overwrite(outgoing: nat, incoming: nat, at: Option<int>, duration: int)
      modifies this
      ensures Clone() == Record(outgoing, incoming, at, duration)
    {
      this.outgoing := outgoing;
      this.incoming := incoming;
      this.at := at;
      this.duration := duration;
    }
  }

  /** How many steps slot j lies behind slot i in a ring of n. */
  function Age(i: nat, j: nat, n: nat): nat
    requires i < n && j < n
  {
    if j <= i then i - j else i + n - j
  }

  /** What a ring of n holds: the newest records by age, the newest at i. */
  function Layout(n: nat, i: nat, records: seq<Record>): (layout: seq<Option<Record>>)
    requires i < n
    ensures |layout| == n
  {
    seq(n, j requires 0 <= j < n =>
      if Age(i, j, n) < |records| then Some(records[|records| - 1 - Age(i, j, n)]) else None)
  }

  /** One record more takes the place of the oldest, just after the newest. */
  lemma LayoutNext(n: nat, i: nat, records: seq<Record>, r: Record)
    requires i < n
    ensures Layout(n, After(i, n), records + [r]) == Layout(n, i, records)[After(i, n) := Some(r)]
  {
    assert forall j :: 0 <= j < n ==>
      Age(After(i, n), j, n) == if j == After(i, n) then 0 else Age(i, j, n) + 1;
  }

  ghost function Contents(slots: seq<Slot<Snapshot?>>): (contents: seq<Option<Record>>)
    reads set s | s in slots && s.value != null :: s.value
    ensures |contents| == |slots|
  {
    seq(|slots|, j requires 0 <= j < |slots| reads set s | s in slots && s.value != null :: s.value =>
      if slots[j].value == null then None else Some(slots[j].value.Clone()))
  }

  /** The set slots hold objects, no object in two of them. */
  ghost predicate Separate(slots: seq<Slot<Snapshot?>>) {
    && (forall j :: 0 <= j < |slots| ==> (slots[j].valuable <==> slots[j].value != null))
    && (forall j, k :: 0 <= j < k < |slots| && slots[j].value != null ==> slots[j].value != slots[k].value)
  }

  /** The ring and all it refers to are in repr, and it holds the newest of the records. */
  ghost predicate RingHolds(ring: ArrayRing<Snapshot?>, repr: set<object>, capacity: nat, records: seq<Record>)
    reads repr
  {
    && ring in repr && ring.slots in repr && ring.Valid() && ring.len == capacity
    && (forall j :: 0 <= j < capacity && ring.slots[j].value != null ==> ring.slots[j].value in repr)
    && Separate(ring.slots[..]) && Contents(ring.slots[..]) == Layout(capacity, ring.i, records)
  }

  lemma NewRingHolds(ring: ArrayRing<Snapshot?>, repr: set<object>, capacity: nat)
    requires ring in repr && ring.slots in repr && ring.Valid() && ring.len == capacity
    requires forall j :: 0 <= j < capacity ==> ring.slots[j] == Slot(false, null)
    ensures RingHolds(ring, repr, capacity, [])
  {
  }

  /** Unset slots before set ones: Do meets just the set ones. */
  lemma {:induction false} ValuedTail<T>(slots: seq<Slot<T>>, p: nat)
    requires p <= |slots| && forall j :: 0 <= j < |slots| ==> (slots[j].valuable <==> p <= j)
    ensures |Valued(slots)| == |slots| - p
    ensures forall j :: 0 <= j < |slots| - p ==> Valued(slots)[j] == slots[p + j].value
  {
    if p == 0 {
      ValuedAll(slots);
    } else {
      ValuedTail(slots[1..], p - 1);
    }
  }

  /** From the slot after the newest, Do meets the records that are kept, oldest first. */
  lemma OldestFirst(slots: seq<Slot<Snapshot?>>, i: nat, records: seq<Record>)
    requires i < |slots| && Separate(slots) && Contents(slots) == Layout(|slots|, i, records)
    ensures var trace := Valued(From(slots, After(i, |slots|)));
      && |trace| == |Newest(records, |slots|)|
      && forall k :: 0 <= k < |trace| ==> trace[k] != null && trace[k].Clone() == Newest(records, |slots|)[k]
  {
    var n := |slots|;
    var around := From(slots, After(i, n));
    var p := if |records| < n then n - |records| else 0;
    forall k | 0 <= k < n
      ensures k < p ==> !around[k].valuable
      ensures p <= k ==>
        around[k].valuable && around[k].value != null && around[k].value.Clone() == Newest(records, n)[k - p]
    {
      var j := if After(i, n) + k < n then After(i, n) + k else After(i, n) + k - n;
      assert around[k] == slots[j] && Age(i, j, n) == n - 1 - k;
      assert Contents(slots)[j] == Layout(n, i, records)[j];
    }
    ValuedTail(around, p);
  }

  /** The words of a counter are its totals, now and at the last snapshot, modulo 2^64. */
  predicate Words(createdAt: Option<int>, updatedAt: Option<int>, outgoing: nat, incoming: nat,
                  lastOutgoing: nat, lastIncoming: nat, snappedAt: Option<int>, t: Tally)
  {
    && createdAt == t.createdAt && updatedAt == t.updatedAt
    && outgoing == Word(t.sent) && incoming == Word(t.received)
    && if t.marks == [] then lastOutgoing == lastIncoming == 0 && snappedAt == None
       else
         var m := t.marks[|t.marks| - 1];
         lastOutgoing == Word(m.sent) && lastIncoming == Word(m.received) && snappedAt == Some(m.at)
  }

  /** The record that a snapshot adds, if there was one before. */
  function Gained(lastOutgoing: nat, outgoing: nat, lastIncoming: nat, incoming: nat, snappedAt: Option<int>, now: int):
      seq<Record>
  {
    match snappedAt
    case None => []
    case Some(at) => [Record(Growth(lastOutgoing, outgoing), Growth(lastIncoming, incoming), Some(now), now - at)]
  }

  /** What TakeSnapshot computes from the words is what the records of the tally gain. */
  lemma WordsSnap(createdAt: Option<int>, updatedAt: Option<int>, outgoing: nat, incoming: nat,
                  lastOutgoing: nat, lastIncoming: nat, snappedAt: Option<int>, t: Tally, now: int)
    requires t.capacity > 0
    requires Words(createdAt, updatedAt, outgoing, incoming, lastOutgoing, lastIncoming, snappedAt, t)
    ensures var next := Snapped(t, now);
      && Words(createdAt, updatedAt, outgoing, incoming, outgoing, incoming, Some(now), next)
      && next.capacity == t.capacity && (snappedAt == None <==> |next.marks| < 2)
      && Deltas(next.marks) == Deltas(t.marks) + Gained(lastOutgoing, outgoing, lastIncoming, incoming, snappedAt, now)
  {
    hide Word, Growth;
    SnapRecords(t, now);
  }

  /** Writes one record into the slot of the header, in the object that it held if there is one. */
  method WriteSlot(header: ArrayRing<Snapshot?>, ghost repr: set<object>,
                   outgoing: nat, incoming: nat, now: int, duration: int) returns (s: Snapshot)
    requires header.Valid() && header.slots in repr && header !in repr && Separate(header.slots[..])
    requires forall j :: 0 <= j < header.len && header.slots[j].value != null ==> header.slots[j].value in repr
    modifies repr
    ensures s in repr || fresh(s)
    ensures s.Clone() == Record(outgoing, incoming, Some(now), duration)
    ensures Separate(header.slots[..])
    ensures Contents(header.slots[..]) == old(Contents(header.slots[..]))[header.i := Some(s.Clone())]
    ensures forall j :: 0 <= j < header.len && header.slots[j].value != null ==> header.slots[j].value in repr + {s}
  {
    var held := header.GetValue();
    if held != null {
      s := held;
      s.Overwrite(outgoing, incoming, Some(now), duration);
    } else {
      s := new Snapshot(outgoing, incoming, Some(now), duration);
      header.SetValue(s);
    }
  }

  method CloneAll(trace: seq<Snapshot?>) returns (results: seq<Record>)
    requires forall k :: 0 <= k < |trace| ==> trace[k] != null
    ensures |results| == |trace| && forall k :: 0 <= k < |trace| ==> results[k] == trace[k].Clone()
  {
    results := [];
    for k := 0 to |trace|
      invariant |results| == k && forall j :: 0 <= j < k ==> results[j] == trace[j].Clone()
    {
      results := results + [trace[k].Clone()];
    }
  }

  class Counter {
    var createdAt: Option<int>
    var lastUpdateAt: Option<int>
    var outgoingBytes: nat
    var incomingBytes: nat
    var outgoingTotal: nat
    var incomingTotal: nat
    var lastOutgoingBytes: nat
    var lastIncomingBytes: nat
    var lastSnapshotAt: Option<int>
    var ring: ArrayRing?<Snapshot?>
    var begun: bool
    ghost var tally: Tally
    ghost var repr: set<object>

    ghost predicate Valid()
      reads this, repr
    {
      && this !in repr && begun == (ring != null) == (tally.capacity > 0) && (ring == null ==> tally.marks == [])
      && Words(createdAt, lastUpdateAt, outgoingTotal, incomingTotal,
               lastOutgoingBytes, lastIncomingBytes, lastSnapshotAt, tally)
      && (ring != null ==> RingHolds(ring, repr, tally.capacity, Deltas(tally.marks)))
    }

    constructor ()
      ensures Valid() && tally == FRESH && repr == {}
    {
      createdAt, lastUpdateAt, lastSnapshotAt := None, None, None;
      outgoingBytes, incomingBytes, outgoingTotal, incomingTotal := 0, 0, 0, 0;
      lastOutgoingBytes, lastIncomingBytes := 0, 0;
      ring, begun, tally, repr := null, false, FRESH, {};
    }

    /** first says whether this call is the one that runs the caller's function. */
    method Init(capacity: nat, now: int) returns (first: bool)
      requires Valid() && capacity >= 1
      modifies this
      ensures Valid() && tally == Begun(old(tally), capacity, now) && first == (old(tally).capacity == 0)
      ensures fresh(repr - old(repr))
    {
      hide RingHolds, Word;
      first := !begun;
      if first {
        createdAt := Some(now);
        lastUpdateAt := Some(now);
        ring := new ArrayRing.New(capacity, null);
        begun := true;
        repr := repr + {ring, ring.slots};
        tally := Begun(tally, capacity, now);
        NewRingHolds(ring, repr, capacity);
      }
    }

    method AddByRWEvent(direction: nat, size: nat, now: int)
      requires Valid()
      modifies this`lastUpdateAt, this`incomingTotal, this`outgoingTotal, this`tally
      ensures Valid() && tally == Added(old(tally), direction, size, now)
    {
      hide Word, RingHolds;
      WordsAdd(tally.sent, size);
      WordsAdd(tally.received, size);
      lastUpdateAt := Some(now);
      if direction == INCOMING {
        incomingTotal := Word(incomingTotal + size);
      } else if direction == OUTGOING {
        outgoingTotal := Word(outgoingTotal + size);
      }
      tally := Added(tally, direction, size, now);
    }

    method IsIdle(now: int, timeout: int) returns (idle: bool)
      requires Valid()
      ensures idle == Idle(tally, now, timeout)
    {
      idle := lastUpdateAt.Some? && now - lastUpdateAt.value > timeout;
    }

    /** Writes one record over the oldest, in the object that held it if there is one. */
    method WriteRecord(outgoing: nat, incoming: nat, now: int, duration: int, ghost records: seq<Record>)
      returns (s: Snapshot)
      requires this !in repr && ring != null && RingHolds(ring, repr, ring.len, records)
      modifies this`ring, this`repr, repr
      ensures this !in repr && ring != null && fresh(repr - old(repr))
      ensures unchanged(this`tally, this`begun, this`createdAt, this`lastUpdateAt, this`outgoingTotal,
                this`incomingTotal, this`outgoingBytes, this`incomingBytes)
      ensures RingHolds(ring, repr, old(ring.len), records + [Record(outgoing, incoming, Some(now), duration)])
      ensures s in repr && s.Clone() == Record(outgoing, incoming, Some(now), duration)
    {
      hide Layout, Separate, Contents;
      LayoutNext(ring.len, ring.i, records, Record(outgoing, incoming, Some(now), duration));
      ring := ring.Next();
      s := WriteSlot(ring, repr, outgoing, incoming, now, duration);
      repr := repr + {ring, s};
    }

    /** Loads the totals and, if there was a snapshot before, records their growth since. */
    method RecordGrowth(now: int, ghost records: seq<Record>) returns (s: Snapshot?)
      requires this !in repr && ring != null && RingHolds(ring, repr, ring.len, records)
      modifies this`outgoingBytes, this`incomingBytes, this`ring, this`repr, repr
      ensures this !in repr && ring != null && fresh(repr - old(repr))
      ensures outgoingBytes == outgoingTotal && incomingBytes == incomingTotal
      ensures unchanged(this`tally, this`begun, this`createdAt, this`lastUpdateAt, this`outgoingTotal,
                this`incomingTotal, this`lastOutgoingBytes, this`lastIncomingBytes, this`lastSnapshotAt)
      ensures RingHolds(ring, repr, old(ring.len), records + Gained(lastOutgoingBytes, outgoingTotal,
                lastIncomingBytes, incomingTotal, lastSnapshotAt, now))
      ensures s == null <==> lastSnapshotAt == None
      ensures s != null ==> s in repr && [s.Clone()] == Gained(lastOutgoingBytes, outgoingTotal,
                lastIncomingBytes, incomingTotal, lastSnapshotAt, now)
    {
      outgoingBytes := outgoingTotal;
      incomingBytes := incomingTotal;
      hide Growth, RingHolds;
      var outgoing := Growth(lastOutgoingBytes, outgoingBytes);
      var incoming := Growth(lastIncomingBytes, incomingBytes);
      s := null;
      if lastSnapshotAt.Some? {
        s := WriteRecord(outgoing, incoming, now, now - lastSnapshotAt.value, records);
      } else {
        assert records + [] == records;
      }
    }

    /** The last lines of a snapshot: what the next one is to be measured from. */
    method KeepTotals(now: int, ghost next: Tally)
      requires this !in repr && begun && ring != null && next.capacity > 0
      requires RingHolds(ring, repr, next.capacity, Deltas(next.marks))
      requires Words(createdAt, lastUpdateAt, outgoingTotal, incomingTotal,
                     outgoingBytes, incomingBytes, Some(now), next)
      modifies this`lastOutgoingBytes, this`lastIncomingBytes, this`lastSnapshotAt, this`tally
      ensures Valid() && tally == next
    {
      hide Words, RingHolds, Deltas;
      lastOutgoingBytes := outgoingBytes;
      lastIncomingBytes := incomingBytes;
      lastSnapshotAt := Some(now);
      tally := next;
    }

    /** The first snapshot records nothing. */
    method TakeSnapshot(now: int) returns (s: Snapshot?)
      requires Valid()
      modifies this, repr
      ensures Valid() && tally == Snapped(old(tally), now) && fresh(repr - old(repr))
      ensures s == null <==> |tally.marks| < 2
      ensures s != null ==> s in repr && s.Clone() == Deltas(tally.marks)[|tally.marks| - 2]
    {
      if ring == null {
        return null;
      }
      ghost var next, records := Snapped(tally, now), Deltas(tally.marks);
      WordsSnap(createdAt, lastUpdateAt, outgoingTotal, incomingTotal,
                lastOutgoingBytes, lastIncomingBytes, lastSnapshotAt, tally, now);
      hide Words, RingHolds, Deltas, Snapped, Snapshot.Clone, Gained;
      s := RecordGrowth(now, records);
      KeepTotals(now, next);
    }

    /** The last of the histories, or the zero record before there is one. */
    method LastSnapshot() returns (r: Record)
      requires Valid()
      ensures var kept := Newest(Deltas(tally.marks), tally.capacity);
        r == if kept == [] then ZERO_RECORD else kept[|kept| - 1]
    {
      if ring == null {
        return ZERO_RECORD;
      }
      assert Contents(ring.slots[..])[ring.i] == Layout(ring.len, ring.i, Deltas(tally.marks))[ring.i];
      var s := ring.GetValue();
      if s != null {
        return s.Clone();
      }
      return ZERO_RECORD;
    }

    /** Copies of the newest records that fit in the ring, oldest first. */
    method Histories() returns (results: seq<Record>)
      requires Valid()
      ensures results == Newest(Deltas(tally.marks), tally.capacity)
    {
      if ring == null {
        return [];
      }
      var header := ring.Next();
      var trace := header.Do();
      OldestFirst(ring.slots[..], ring.i, Deltas(tally.marks));
      results := CloneAll(trace);
    }
  }

  /** Whatever is done with a counter, its histories are the last records of the run
      that fit in its ring, oldest first, and its last snapshot is the last of them. */
  method Drive(acts: seq<Act>) returns (histories: seq<Record>, last: Record)
    requires forall a :: a in acts && a.Begin? ==> a.capacity >= 1
    ensures histories == Newest(Deltas(Played(acts).marks), Played(acts).capacity)
    ensures last == if histories == [] then ZERO_RECORD else histories[|histories| - 1]
  {
    var c := new Counter();
    hide Counter.Valid, Begun, Added, Snapped, Deltas, Newest;
    for k := 0 to |acts|
      invariant c.Valid() && fresh(c) && fresh(c.repr) && c.tally == Played(acts[..k])
    {
      assert acts[..k + 1] == acts[..k] + [acts[k]];
      assert acts[..k + 1][..k] == acts[..k];
      match acts[k] {
        case Begin(n, now) => var _ := c.Init(n, now);
        case Add(d, size, now) => c.AddByRWEvent(d, size, now);
        case Snap(now) => var _ := c.TakeSnapshot(now);
      }
    }
    assert acts[..|acts|] == acts;
    histories := c.Histories();
    last := c.LastSnapshot();
  }
}
