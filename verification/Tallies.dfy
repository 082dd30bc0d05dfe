/**
 What a traffic counter stands for (engine/counter.go): unbounded byte totals, and the
 totals as they stood at each snapshot. The laws of the accounting are proved here; the
 counter itself, with its 64-bit words and its ring of reused snapshots, is in Counters.
 */
module Tallies {
  import opened Options

  const WORD: nat := 0x1_0000_0000_0000_0000

  const OUTGOING: nat := 0
  const INCOMING: nat := 1

  /** The value of one snapshot: bytes since the previous one, its time, and the time between the two. */
  datatype Record = Record(outgoing: nat, incoming: nat, at: Option<int>, duration: int)

  const ZERO_RECORD: Record := Record(0, 0, None, 0)

  /** The totals at the moment of a snapshot. */
  datatype Mark = Mark(at: int, sent: nat, received: nat)

  /** capacity is the size of the history ring, 0 while there is none. */
  datatype Tally = Tally(
    capacity: nat,
    createdAt: Option<int>,
    updatedAt: Option<int>,
    sent: nat,
    received: nat,
    marks: seq<Mark>)

  const FRESH: Tally := Tally(0, None, None, 0, 0, [])

  // ---------------------------------------------------------------- operations

  function Begun(t: Tally, capacity: nat, now: int): Tally {
    if t.capacity > 0 then t
    else t.(capacity := capacity, createdAt := Some(now), updatedAt := Some(now))
  }

  function Added(t: Tally, direction: nat, size: nat, now: int): Tally {
    t.(updatedAt := Some(now),
       sent := t.sent + (if direction == OUTGOING then size else 0),
       received := t.received + (if direction == INCOMING then size else 0))
  }

  function Snapped(t: Tally, now: int): Tally {
    if t.capacity == 0 then t else t.(marks := t.marks + [Mark(now, t.sent, t.received)])
  }

  predicate Idle(t: Tally, now: int, timeout: int) {
    t.updatedAt.Some? && now - t.updatedAt.value > timeout
  }

  // ---------------------------------------------------------------- what is recorded

  /** A 64-bit word. */
  function Word(n: int): nat {
    n % WORD
  }

  /** The difference of two totals as 64-bit words. */
  function Growth(a: nat, b: nat): nat {
    Word(b - a)
  }

  lemma Congruent(x: int, y: int, laps: int)
    requires x + laps * 0x1_0000_0000_0000_0000 == y
    ensures x % WORD == y % WORD
  {
  }

  /** Words add and subtract as the totals they stand for do. */
  lemma WordsAdd(a: nat, b: nat)
    ensures Word(Word(a) + b) == Word(a + b) && Growth(Word(a), Word(b)) == Growth(a, b)
  {
    Congruent(Word(a) + b, a + b, a / WORD);
    Congruent(Word(b) - Word(a), b - a, b / WORD - a / WORD);
  }

  function Window(a: Mark, b: Mark): Record {
    Record(Growth(a.sent, b.sent), Growth(a.received, b.received), Some(b.at), b.at - a.at)
  }

  /** Every record ever made: one for each snapshot but the first. */
  function Deltas(marks: seq<Mark>): (records: seq<Record>)
    ensures |records| == if marks == [] then 0 else |marks| - 1
    ensures forall k :: 0 <= k < |records| ==> records[k] == Window(marks[k], marks[k + 1])
  {
    if |marks| < 2 then []
    else Deltas(marks[..|marks| - 1]) + [Window(marks[|marks| - 2], marks[|marks| - 1])]
  }

  /** A snapshot after the first records the growth of the totals since the one before, as words. */
  lemma SnapRecords(t: Tally, now: int)
    requires t.capacity > 0
    ensures var next := Snapped(t, now);
      && next == t.(marks := next.marks) && |next.marks| == |t.marks| + 1
      && next.marks[|t.marks|] == Mark(now, t.sent, t.received)
      && Deltas(next.marks) == Deltas(t.marks) +
           if t.marks == [] then [] else
           var last := t.marks[|t.marks| - 1];
           [Record(Growth(Word(last.sent), Word(t.sent)), Growth(Word(last.received), Word(t.received)),
                   Some(now), now - last.at)]
  {
    assert Snapped(t, now).marks[..|t.marks|] == t.marks;
    if t.marks != [] {
      var last := t.marks[|t.marks| - 1];
      WordsAdd(last.sent, t.sent);
      WordsAdd(last.received, t.received);
      hide Growth, Word;
    }
  }

  /** The newest n. */
  function Newest<X>(s: seq<X>, n: nat): seq<X> {
    if |s| <= n then s else s[|s| - n..]
  }

  function SumOutgoing(records: seq<Record>): nat {
    if records == [] then 0 else SumOutgoing(records[..|records| - 1]) + records[|records| - 1].outgoing
  }

  function SumIncoming(records: seq<Record>): nat {
    if records == [] then 0 else SumIncoming(records[..|records| - 1]) + records[|records| - 1].incoming
  }

  function SumDurations(records: seq<Record>): int {
    if records == [] then 0 else SumDurations(records[..|records| - 1]) + records[|records| - 1].duration
  }

  // ---------------------------------------------------------------- runs

  datatype Act = Begin(capacity: nat, now: int) | Add(direction: nat, size: nat, now: int) | Snap(now: int)

  function Perform(t: Tally, a: Act): Tally {
    match a
    case Begin(n, now) => Begun(t, n, now)
    case Add(d, size, now) => Added(t, d, size, now)
    case Snap(now) => Snapped(t, now)
  }

  function Played(acts: seq<Act>): Tally {
    if acts == [] then FRESH else Perform(Played(acts[..|acts| - 1]), acts[|acts| - 1])
  }

  /** The bytes that a run adds in one direction. */
  function Bytes(acts: seq<Act>, direction: nat): nat {
    if acts == [] then 0
    else
      var a := acts[|acts| - 1];
      Bytes(acts[..|acts| - 1], direction) + (if a.Add? && a.direction == direction then a.size else 0)
  }

  /** Totals only grow. */
  predicate Rising(t: Tally) {
    && (forall k :: 0 <= k < |t.marks| - 1 ==>
          t.marks[k].sent <= t.marks[k + 1].sent && t.marks[k].received <= t.marks[k + 1].received)
    && (t.marks != [] ==>
          t.marks[|t.marks| - 1].sent <= t.sent && t.marks[|t.marks| - 1].received <= t.received)
  }

  lemma FreshRises()
    ensures Rising(FRESH)
  {
  }

  lemma PerformRises(t: Tally, a: Act)
    requires Rising(t)
    ensures Rising(Perform(t, a))
  {
  }

  lemma {:induction false} RunRises(acts: seq<Act>)
    ensures Rising(Played(acts))
    ensures Played(acts).sent == Bytes(acts, OUTGOING) && Played(acts).received == Bytes(acts, INCOMING)
  {
    hide Rising;
    if acts == [] {
      FreshRises();
    } else {
      RunRises(acts[..|acts| - 1]);
      PerformRises(Played(acts[..|acts| - 1]), acts[|acts| - 1]);
    }
  }

  // ---------------------------------------------------------------- conservation

  /** What the next snapshot would record, before it is reduced to a word. */
  function Pending(total: nat, marks: seq<Mark>, out: bool): int
    requires marks != []
  {
    var m := marks[|marks| - 1];
    total - if out then m.sent else m.received
  }

  /** The records fall short of the growth of a total by whole words. */
  lemma {:induction false} RecordedBytes(marks: seq<Mark>) returns (p: int, q: int)
    requires marks != []
    ensures marks[0].sent + SumOutgoing(Deltas(marks)) + p * 0x1_0000_0000_0000_0000 == marks[|marks| - 1].sent
    ensures marks[0].received + SumIncoming(Deltas(marks)) + q * 0x1_0000_0000_0000_0000 == marks[|marks| - 1].received
  {
    if |marks| == 1 {
      return 0, 0;
    }
    var rest := marks[..|marks| - 1];
    p, q := RecordedBytes(rest);
    var records := Deltas(marks);
    assert records[..|records| - 1] == Deltas(rest);
    var a, b := marks[|marks| - 2], marks[|marks| - 1];
    p := p + (b.sent - a.sent) / WORD;
    q := q + (b.received - a.received) / WORD;
  }

  /** Conservation over any run: the bytes before the first snapshot, every record
      ever made, and what is still to be recorded add up, as 64-bit words, to the
      bytes that were added, in each direction. */
  lemma {:induction false} Conservation(acts: seq<Act>)
    requires Played(acts).marks != []
    ensures var t := Played(acts);
      && (t.marks[0].sent + SumOutgoing(Deltas(t.marks)) + Pending(t.sent, t.marks, true)) % WORD
           == Bytes(acts, OUTGOING) % WORD
      && (t.marks[0].received + SumIncoming(Deltas(t.marks)) + Pending(t.received, t.marks, false)) % WORD
           == Bytes(acts, INCOMING) % WORD
  {
    RunRises(acts);
    var t := Played(acts);
    var p, q := RecordedBytes(t.marks);
    Congruent(t.marks[0].sent + SumOutgoing(Deltas(t.marks)) + Pending(t.sent, t.marks, true), t.sent, p);
    Congruent(t.marks[0].received + SumIncoming(Deltas(t.marks)) + Pending(t.received, t.marks, false), t.received, q);
  }

  lemma GrowthExact(a: nat, b: nat)
    requires a <= b
    ensures Growth(a, b) == b - a <==> b - a < WORD
  {
  }

  /** A record is the true number of bytes exactly when fewer than 2^64 arrived between the two snapshots. */
  lemma RecordExact(acts: seq<Act>, k: nat)
    requires k + 1 < |Played(acts).marks|
    ensures var t := Played(acts); var a, b := t.marks[k], t.marks[k + 1];
      && (Deltas(t.marks)[k].outgoing == b.sent - a.sent <==> b.sent - a.sent < 0x1_0000_0000_0000_0000)
      && (Deltas(t.marks)[k].incoming == b.received - a.received <==> b.received - a.received < 0x1_0000_0000_0000_0000)
  {
    RunRises(acts);
    var t := Played(acts);
    var a, b := t.marks[k], t.marks[k + 1];
    assert a.sent <= b.sent && a.received <= b.received;
    GrowthExact(a.sent, b.sent);
    GrowthExact(a.received, b.received);
    hide Growth, Rising;
  }

  /** The time at which the window of records[k] opens, if the first opens at start. */
  function Opening(records: seq<Record>, k: nat, start: int): Option<int>
    requires k < |records|
  {
    if k == 0 then Some(start) else records[k - 1].at
  }

  lemma {:induction false} DurationsAddUp(marks: seq<Mark>)
    requires marks != []
    ensures SumDurations(Deltas(marks)) == marks[|marks| - 1].at - marks[0].at
  {
    hide Growth;
    var records := Deltas(marks);
    if |marks| > 1 {
      var rest := marks[..|marks| - 1];
      DurationsAddUp(rest);
      assert records[..|records| - 1] == Deltas(rest);
    }
  }

  lemma {:induction false} WindowOpens(marks: seq<Mark>, k: nat)
    requires k + 1 < |marks|
    ensures var records := Deltas(marks);
      records[k].at.Some? && Opening(records, k, marks[0].at) == Some(records[k].at.value - records[k].duration)
  {
    assert Deltas(marks)[k] == Window(marks[k], marks[k + 1]);
    if k > 0 {
      assert Deltas(marks)[k - 1] == Window(marks[k - 1], marks[k]);
    }
    hide Deltas, Growth;
  }

  /** The windows of the records tile the time from the first snapshot to the last. */
  lemma WindowsTile(marks: seq<Mark>)
    requires marks != []
    ensures var records := Deltas(marks);
      && (forall k :: 0 <= k < |records| ==>
            records[k].at.Some? && Opening(records, k, marks[0].at) == Some(records[k].at.value - records[k].duration))
      && SumDurations(records) == marks[|marks| - 1].at - marks[0].at
  {
    hide Window, SumDurations, Deltas, Opening;
    DurationsAddUp(marks);
    forall k | 0 <= k < |Deltas(marks)| {
      WindowOpens(marks, k);
    }
  }
}
