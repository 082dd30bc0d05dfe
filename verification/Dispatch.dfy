/**
 A worker's handling of samples (engine/event.go, engine/worker.go): one object for each
 kind of event, whose fields are overwritten by every sample of that kind.
 */
module Dispatch {
  import opened Options
  import opened Wire

  /** The unread bytes of a sample. */
  class Buffer {
    var rest: seq<Byte>

    constructor (sample: seq<Byte>)
      ensures rest == sample
    {
      rest := sample;
    }

    /** A read that runs out of bytes uses up what there was. */
    method Read(width: nat, little: bool) returns (n: Option<nat>)
      modifies this
      ensures n == if |old(rest)| < width then None else Some(Number(old(rest)[..width], little))
      ensures rest == if |old(rest)| < width then [] else old(rest)[width..]
    {
      if |rest| < width {
        rest := [];
        return None;
      }
      n := Some(Number(rest[..width], little));
      rest := rest[width..];
    }
  }

  /** What a decode leaves in the fields of an object, and whether every field was there. */
  datatype Decoding = Decoding(fields: seq<nat>, ok: bool)

  /** The decoding of a whole from the fields read so far and that of the rest. */
  function Following(got: seq<nat>, rest: Decoding): Decoding {
    Decoding(got + rest.fields, rest.ok)
  }

  /** A decode stops at the first field that is not there: those before it are overwritten,
      and from there on the object keeps what it held. */
  function Decoded(held: seq<nat>, b: seq<Byte>, widths: seq<nat>, little: bool): (d: Decoding)
    requires |held| == |widths|
    ensures |d.fields| == |held|
    decreases |widths|
  {
    if widths == [] then Decoding([], true)
    else if |b| < widths[0] then Decoding(held, false)
    else Following([Number(b[..widths[0]], little)], Decoded(held[1..], b[widths[0]..], widths[1..], little))
  }

  /** A decode succeeds when all the fields are there, whatever the object held. */
  lemma {:induction false} DecodedIs(held: seq<nat>, b: seq<Byte>, widths: seq<nat>, little: bool)
    requires |held| == |widths|
    ensures var d, fields := Decoded(held, b, widths, little), Unpacked(b, widths, little);
      (d.ok <==> fields.Some?) && (d.ok ==> d.fields == fields.value)
    decreases |widths|
  {
    if widths != [] && |b| >= widths[0] {
      DecodedIs(held[1..], b[widths[0]..], widths[1..], little);
    }
  }

  /** How many bytes the first k fields take. */
  function Offset(widths: seq<nat>, k: nat): nat
    requires k <= |widths|
  {
    if k == 0 then 0 else widths[0] + Offset(widths[1..], k - 1)
  }

  lemma {:induction false} OffsetNext(widths: seq<nat>, k: nat)
    requires k < |widths|
    ensures Offset(widths, k + 1) == Offset(widths, k) + widths[k]
    ensures Offset(widths, k + 1) >= widths[0]
  {
    if k > 0 {
      OffsetNext(widths[1..], k - 1);
    }
  }

  /** A field is overwritten, by its own bytes, exactly if the sample reaches to its end. */
  lemma {:induction false} DecodedAt(held: seq<nat>, b: seq<Byte>, widths: seq<nat>, little: bool, k: nat)
    requires |held| == |widths| && k < |widths|
    ensures Offset(widths, k) + widths[k] == Offset(widths, k + 1)
    ensures Decoded(held, b, widths, little).fields[k] ==
      if |b| < Offset(widths, k + 1) then held[k]
      else Number(b[Offset(widths, k)..Offset(widths, k + 1)], little)
    decreases |widths|
  {
    hide Number;
    var w := widths[0];
    OffsetNext(widths, k);
    if k > 0 && |b| >= w {
      DecodedAt(held[1..], b[w..], widths[1..], little, k - 1);
      if |b| >= Offset(widths, k + 1) {
        assert b[w..][Offset(widths[1..], k - 1)..Offset(widths[1..], k)]
            == b[Offset(widths, k)..Offset(widths, k + 1)];
      }
    }
  }

  /** The field k of a struct is read. */
  lemma OneField(held: seq<nat>, got: seq<nat>, b: seq<Byte>, widths: seq<nat>, k: nat, little: bool)
    requires |held| == |widths| && k < |widths|
    ensures Following(got, Decoded(held[k..], b, widths[k..], little)) ==
      if |b| < widths[k] then Decoding(got + held[k..], false)
      else Following(got + [Number(b[..widths[k]], little)],
                     Decoded(held[k + 1..], b[widths[k]..], widths[k + 1..], little))
  {
    var w := widths[k];
    assert widths[k..][1..] == widths[k + 1..] && held[k..][1..] == held[k + 1..];
    if |b| >= w {
      var x, rest := Number(b[..w], little), Decoded(held[k + 1..], b[w..], widths[k + 1..], little);
      assert got + ([x] + rest.fields) == got + [x] + rest.fields;
    }
  }

  /** No field is read yet, and all are. */
  lemma FirstAndLast(held: seq<nat>, got: seq<nat>, b: seq<Byte>, widths: seq<nat>, little: bool)
    requires |held| == |widths|
    ensures Following([], Decoded(held[0..], b, widths[0..], little)) == Decoded(held, b, widths, little)
    ensures Following(got, Decoded(held[|widths|..], b, widths[|widths|..], little)) == Decoding(got, true)
  {
    assert got + [] == got && widths[0..] == widths && held[0..] == held;
    var d := Decoded(held, b, widths, little);
    assert [] + d.fields == d.fields;
  }

  /** Reads the field k of a struct of which got has been read, all being what the whole amounts to. */
  method ReadField(buf: Buffer, little: bool, ghost widths: seq<nat>, k: nat, width: nat,
                   ghost held: seq<nat>, ghost got: seq<nat>, ghost all: Decoding)
    returns (n: Option<nat>, ghost next: seq<nat>)
    requires |held| == |widths| && k < |widths| && width == widths[k]
    requires all == Following(got, Decoded(held[k..], buf.rest, widths[k..], little))
    modifies buf
    ensures n == None ==> all == Decoding(got + held[k..], false)
    ensures n.Some? ==>
      next == got + [n.value] && all == Following(next, Decoded(held[k + 1..], buf.rest, widths[k + 1..], little))
  {
    OneField(held, got, buf.rest, widths, k, little);
    n := buf.Read(width, little);
    next := if n == None then got else got + [n.value];
  }

  class RWEvent {
    var pid: nat
    var tid: nat
    var fd: nat
    var fdType: nat
    var direction: nat
    var size: nat

    function Value(): Event
      reads this
    {
      RW(pid, tid, fd, fdType, direction, size)
    }

    /** The first three fields. */
    method DecodeWhere(buf: Buffer, little: bool, ghost held: seq<nat>, ghost all: Decoding) returns (ok: bool)
      requires held == Fields(Value())
      requires all == Following([], Decoded(held[0..], buf.rest, Widths(RW_TAG)[0..], little))
      modifies this`pid, this`tid, this`fd, buf
      ensures if ok then all == Following([pid, tid, fd], Decoded(held[3..], buf.rest, Widths(RW_TAG)[3..], little))
              else all == Decoding(Fields(Value()), false)
    {
      hide Number, Decoded, Following;
      var n: Option<nat>;
      ghost var got: seq<nat>;
      n, got := ReadField(buf, little, Widths(RW_TAG), 0, 4, held, [], all);
      if n == None { return false; }
      pid := n.value;
      n, got := ReadField(buf, little, Widths(RW_TAG), 1, 4, held, got, all);
      if n == None { return false; }
      tid := n.value;
      n, got := ReadField(buf, little, Widths(RW_TAG), 2, 4, held, got, all);
      if n == None { return false; }
      fd := n.value;
      assert got == [pid, tid, fd];
      return true;
    }

    /** The other three. */
    method DecodeWhat(buf: Buffer, little: bool, ghost held: seq<nat>, ghost all: Decoding) returns (ok: bool)
      requires |held| == 6 && held[3..] == [fdType, direction, size]
      requires all == Following([pid, tid, fd], Decoded(held[3..], buf.rest, Widths(RW_TAG)[3..], little))
      modifies this`fdType, this`direction, this`size, buf
      ensures all == Decoding(Fields(Value()), ok)
    {
      hide Number, Decoded, Following;
      var n: Option<nat>;
      ghost var got: seq<nat>;
      n, got := ReadField(buf, little, Widths(RW_TAG), 3, 1, held, [pid, tid, fd], all);
      if n == None { return false; }
      fdType := n.value;
      n, got := ReadField(buf, little, Widths(RW_TAG), 4, 1, held, got, all);
      if n == None { return false; }
      direction := n.value;
      n, got := ReadField(buf, little, Widths(RW_TAG), 5, 8, held, got, all);
      if n == None { return false; }
      size := n.value;
      assert got == [pid, tid, fd, fdType, direction, size];
      FirstAndLast(held, got, buf.rest, Widths(RW_TAG), little);
      return true;
    }

    method Decode(buf: Buffer, little: bool) returns (ok: bool)
      modifies this, buf
      ensures Decoding(Fields(Value()), ok) ==
        Decoded(old(Fields(Value())), old(buf.rest), Widths(RW_TAG), little)
      ensures var fields := Unpacked(old(buf.rest), Widths(RW_TAG), little);
        && ok == fields.Some?
        && (ok ==> Value() == Made(RW_TAG, fields.value))
    {
      hide Unpacked, Number, Decoded, Following;
      ghost var held := Fields(Value());
      ghost var all := Decoded(held, buf.rest, Widths(RW_TAG), little);
      FirstAndLast(held, [], buf.rest, Widths(RW_TAG), little);
      DecodedIs(held, buf.rest, Widths(RW_TAG), little);
      ok := DecodeWhere(buf, little, held, all);
      if ok {
        ok := DecodeWhat(buf, little, held, all);
      }
    }
  }

  class CloseEvent {
    var pid: nat
    var tid: nat
    var fd: nat

    function Value(): Event
      reads this
    {
      Close(pid, tid, fd)
    }

    /** The three fields. */
    method DecodeAll(buf: Buffer, little: bool, ghost held: seq<nat>, ghost all: Decoding) returns (ok: bool)
      requires held == Fields(Value())
      requires all == Following([], Decoded(held[0..], buf.rest, Widths(CLOSE_TAG)[0..], little))
      modifies this, buf
      ensures all == Decoding(Fields(Value()), ok)
    {
      hide Number, Decoded, Following;
      var n: Option<nat>;
      ghost var got: seq<nat>;
      n, got := ReadField(buf, little, Widths(CLOSE_TAG), 0, 4, held, [], all);
      if n == None { return false; }
      pid := n.value;
      n, got := ReadField(buf, little, Widths(CLOSE_TAG), 1, 4, held, got, all);
      if n == None { return false; }
      tid := n.value;
      n, got := ReadField(buf, little, Widths(CLOSE_TAG), 2, 4, held, got, all);
      if n == None { return false; }
      fd := n.value;
      assert got == [pid, tid, fd];
      FirstAndLast(held, got, buf.rest, Widths(CLOSE_TAG), little);
      return true;
    }

    method Decode(buf: Buffer, little: bool) returns (ok: bool)
      modifies this, buf
      ensures Decoding(Fields(Value()), ok) ==
        Decoded(old(Fields(Value())), old(buf.rest), Widths(CLOSE_TAG), little)
      ensures var fields := Unpacked(old(buf.rest), Widths(CLOSE_TAG), little);
        && ok == fields.Some?
        && (ok ==> Value() == Made(CLOSE_TAG, fields.value))
    {
      hide Unpacked, Number, Decoded, Following;
      ghost var held := Fields(Value());
      ghost var all := Decoded(held, buf.rest, Widths(CLOSE_TAG), little);
      FirstAndLast(held, [], buf.rest, Widths(CLOSE_TAG), little);
      DecodedIs(held, buf.rest, Widths(CLOSE_TAG), little);
      ok := DecodeAll(buf, little, held, all);
    }
  }

  class ExitEvent {
    var pid: nat
    var tid: nat

    function Value(): Event
      reads this
    {
      Exit(pid, tid)
    }

    method Decode(buf: Buffer, little: bool) returns (ok: bool)
      modifies this, buf
      ensures Decoding(Fields(Value()), ok) ==
        Decoded(old(Fields(Value())), old(buf.rest), Widths(EXIT_TAG), little)
      ensures var fields := Unpacked(old(buf.rest), Widths(EXIT_TAG), little);
        && ok == fields.Some?
        && (ok ==> Value() == Made(EXIT_TAG, fields.value))
    {
      hide Unpacked, Number, Decoded, Following;
      ghost var widths, held := Widths(EXIT_TAG), Fields(Value());
      ghost var all := Decoded(held, buf.rest, widths, little);
      FirstAndLast(held, [], buf.rest, widths, little);
      DecodedIs(held, buf.rest, widths, little);
      var n: Option<nat>;
      ghost var got: seq<nat> := [];
      n, got := ReadField(buf, little, widths, 0, 4, held, got, all);
      if n == None { return false; }
      pid := n.value;
      n, got := ReadField(buf, little, widths, 1, 4, held, got, all);
      if n == None { return false; }
      tid := n.value;
      FirstAndLast(held, got, buf.rest, widths, little);
      return true;
    }
  }

  lemma OneByte(sample: seq<Byte>)
    requires sample != []
    ensures Number(sample[..1], true) == sample[0]
  {
    assert sample[..1][1..] == [];
    assert Number([], true) == 0;
  }

  class Worker {
    const little: bool
    const rwEvent: RWEvent
    const closeEvent: CloseEvent
    const exitEvent: ExitEvent
    var eventType: Byte

    constructor (little: bool)
      ensures this.little == little && fresh(rwEvent) && fresh(closeEvent) && fresh(exitEvent)
    {
      this.little := little;
      rwEvent := new RWEvent;
      closeEvent := new CloseEvent;
      exitEvent := new ExitEvent;
      eventType := 0;
    }

    /** The event whose Process is called, if it comes to that: whatever the objects
        held before, it is the one the sample stands for. */
    method HandleSample(sample: seq<Byte>) returns (processed: Option<Event>)
      modifies this, rwEvent, closeEvent, exitEvent
      ensures processed == Meaning(sample, little)
    {
      var buf := new Buffer(sample);
      var n := buf.Read(1, true);
      if n == None {
        return None;
      }
      OneByte(sample);
      eventType := n.value;
      if eventType == CLOSE_TAG {
        var ok := closeEvent.Decode(buf, little);
        return if ok then Some(closeEvent.Value()) else None;
      } else if eventType == EXIT_TAG {
        var ok := exitEvent.Decode(buf, little);
        return if ok then Some(exitEvent.Value()) else None;
      } else if eventType == RW_TAG {
        var ok := rwEvent.Decode(buf, little);
        return if ok then Some(rwEvent.Value()) else None;
      } else {
        return None;
      }
    }
  }

  /** The events that the samples stand for, in order. */
  function Meanings(samples: seq<seq<Byte>>, little: bool): seq<Event> {
    if samples == [] then []
    else
      var last := Meaning(samples[|samples| - 1], little);
      Meanings(samples[..|samples| - 1], little) + if last.Some? then [last.value] else []
  }

  /** A worker processes the events of its samples, one by one, and nothing else. */
  method HandleAll(samples: seq<seq<Byte>>, little: bool) returns (processed: seq<Event>)
    ensures processed == Meanings(samples, little)
  {
    var worker := new Worker(little);
    processed := [];
    for k := 0 to |samples|
      invariant fresh(worker) && fresh(worker.rwEvent) && fresh(worker.closeEvent) && fresh(worker.exitEvent)
      invariant processed == Meanings(samples[..k], little) && worker.little == little
    {
      var e := worker.HandleSample(samples[k]);
      assert samples[..k + 1] == samples[..k] + [samples[k]];
      assert samples[..k + 1][..k] == samples[..k];
      if e.Some? {
        processed := processed + [e.value];
      }
    }
    assert samples[..|samples|] == samples;
  }
}
