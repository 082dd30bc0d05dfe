/**
 The events as bytes: the packed structs the kernel side writes (tracepoint/tracepoint.c)
 and what the samples made of them mean.
 */
module Wire {
  import opened Options

  type Byte = x: nat | x < 256

  datatype Event =
    | RW(pid: nat, tid: nat, fd: nat, fdType: nat, direction: nat, size: nat)
    | Close(pid: nat, tid: nat, fd: nat)
    | Exit(pid: nat, tid: nat)

  const RW_TAG: Byte := 0
  const CLOSE_TAG: Byte := 1
  const EXIT_TAG: Byte := 2

  // ---------------------------------------------------------------- numbers

  /** 256 to the power of width. */
  function Span(width: nat): (n: nat)
    ensures n >= 1
  {
    if width == 0 then 1 else 256 * Span(width - 1)
  }

  lemma Spans()
    ensures Span(1) == 0x100 && Span(4) == 0x1_0000_0000 && Span(8) == 0x1_0000_0000_0000_0000
  {
    assert Span(2) == 0x1_0000 && Span(3) == 0x100_0000;
    assert Span(5) == 0x100_0000_0000 && Span(6) == 0x1_0000_0000_0000 && Span(7) == 0x100_0000_0000_0000;
  }

  function Bytes(n: nat, width: nat, little: bool): (b: seq<Byte>)
    ensures |b| == width
    decreases width
  {
    if width == 0 then []
    else if little then [n % 256] + Bytes(n / 256, width - 1, little)
    else Bytes(n / 256, width - 1, little) + [n % 256]
  }

  function Number(b: seq<Byte>, little: bool): (n: nat)
    ensures n < Span(|b|)
  {
    if b == [] then 0
    else if little then b[0] + 256 * Number(b[1..], little)
    else 256 * Number(b[..|b| - 1], little) + b[|b| - 1]
  }

  lemma {:induction false} NumberOfBytes(n: nat, width: nat, little: bool)
    requires n < Span(width)
    ensures Number(Bytes(n, width, little), little) == n
  {
    if width > 0 {
      var b := Bytes(n, width, little);
      NumberOfBytes(n / 256, width - 1, little);
      if little {
        assert b[1..] == Bytes(n / 256, width - 1, little);
      } else {
        assert b[..|b| - 1] == Bytes(n / 256, width - 1, little);
      }
    }
  }

  lemma {:induction false} BytesOfNumber(b: seq<Byte>, little: bool)
    ensures Bytes(Number(b, little), |b|, little) == b
  {
    if b != [] {
      if little {
        BytesOfNumber(b[1..], little);
      } else {
        BytesOfNumber(b[..|b| - 1], little);
      }
    }
  }

  // ---------------------------------------------------------------- packed structs

  /** The widths of the fields after the tag, in the order of the struct. */
  function Widths(tag: Byte): seq<nat> {
    if tag == RW_TAG then [4, 4, 4, 1, 1, 8]
    else if tag == CLOSE_TAG then [4, 4, 4]
    else if tag == EXIT_TAG then [4, 4]
    else []
  }

  function Tag(e: Event): Byte {
    match e
    case RW(_, _, _, _, _, _) => RW_TAG
    case Close(_, _, _) => CLOSE_TAG
    case Exit(_, _) => EXIT_TAG
  }

  function Fields(e: Event): (fields: seq<nat>)
    ensures |fields| == |Widths(Tag(e))|
  {
    match e
    case RW(pid, tid, fd, fdType, direction, size) => [pid, tid, fd, fdType, direction, size]
    case Close(pid, tid, fd) => [pid, tid, fd]
    case Exit(pid, tid) => [pid, tid]
  }

  function Made(tag: Byte, fields: seq<nat>): (e: Event)
    requires tag <= EXIT_TAG && |fields| == |Widths(tag)|
    ensures Tag(e) == tag && Fields(e) == fields
  {
    if tag == RW_TAG then RW(fields[0], fields[1], fields[2], fields[3], fields[4], fields[5])
    else if tag == CLOSE_TAG then Close(fields[0], fields[1], fields[2])
    else Exit(fields[0], fields[1])
  }

  predicate InWidth(fields: seq<nat>, widths: seq<nat>)
    requires |fields| == |widths|
  {
    forall k :: 0 <= k < |fields| ==> fields[k] < Span(widths[k])
  }

  /** Every field is within the type the struct gives it. */
  predicate Fits(e: Event) {
    InWidth(Fields(e), Widths(Tag(e)))
  }

  function Packed(fields: seq<nat>, widths: seq<nat>, little: bool): seq<Byte>
    requires |fields| == |widths|
  {
    if fields == [] then [] else Bytes(fields[0], widths[0], little) + Packed(fields[1..], widths[1..], little)
  }

  function Encode(e: Event, little: bool): seq<Byte> {
    [Tag(e)] + Packed(Fields(e), Widths(Tag(e)), little)
  }

  /** The fields read one after the other, or nothing if the bytes run out. */
  function Unpacked(b: seq<Byte>, widths: seq<nat>, little: bool): (fields: Option<seq<nat>>)
    ensures fields.Some? ==> |fields.value| == |widths|
    decreases |widths|
  {
    if widths == [] then Some([])
    else if |b| < widths[0] then None
    else
      match Unpacked(b[widths[0]..], widths[1..], little)
      case None => None
      case Some(rest) => Some([Number(b[..widths[0]], little)] + rest)
  }

  /** The event that a sample stands for, if it is one. */
  function Meaning(sample: seq<Byte>, little: bool): Option<Event> {
    if sample == [] || sample[0] > EXIT_TAG then None
    else
      match Unpacked(sample[1..], Widths(sample[0]), little)
      case None => None
      case Some(fields) => Some(Made(sample[0], fields))
  }

  lemma {:induction false} UnpackedPacked(fields: seq<nat>, widths: seq<nat>, little: bool, padding: seq<Byte>)
    requires |fields| == |widths| && InWidth(fields, widths)
    ensures Unpacked(Packed(fields, widths, little) + padding, widths, little) == Some(fields)
  {
    hide Number, Bytes;
    if fields == [] {
      assert widths == [];
    } else {
      var first, rest := Bytes(fields[0], widths[0], little), Packed(fields[1..], widths[1..], little);
      var b := Packed(fields, widths, little) + padding;
      assert b[..widths[0]] == first && b[widths[0]..] == rest + padding;
      NumberOfBytes(fields[0], widths[0], little);
      UnpackedPacked(fields[1..], widths[1..], little, padding);
      assert [fields[0]] + fields[1..] == fields;
    }
  }

  lemma FieldsTell(d: Event, e: Event)
    requires Tag(d) == Tag(e) && Fields(d) == Fields(e)
    ensures d == e
  {
    match d {
      case RW(pid, tid, fd, fdType, direction, size) =>
        assert Fields(d) == [pid, tid, fd, fdType, direction, size];
        assert Fields(e)[0] == e.pid && Fields(e)[1] == e.tid && Fields(e)[2] == e.fd
          && Fields(e)[3] == e.fdType && Fields(e)[4] == e.direction && Fields(e)[5] == e.size;
      case Close(pid, tid, fd) =>
        assert Fields(e)[0] == e.pid && Fields(e)[1] == e.tid && Fields(e)[2] == e.fd;
      case Exit(pid, tid) =>
        assert Fields(e)[0] == e.pid && Fields(e)[1] == e.tid;
    }
  }

  lemma TagWithin(e: Event)
    ensures Tag(e) <= EXIT_TAG
  {
  }

  /** Whatever follows it, a struct is read back field by field. */
  lemma RoundTrip(e: Event, little: bool, padding: seq<Byte>)
    requires Fits(e)
    ensures Meaning(Encode(e, little) + padding, little) == Some(e)
  {
    hide Packed, Unpacked, Made, Fields, Widths, InWidth;
    var sample := Encode(e, little) + padding;
    TagWithin(e);
    assert sample[1..] == Packed(Fields(e), Widths(Tag(e)), little) + padding;
    UnpackedPacked(Fields(e), Widths(Tag(e)), little, padding);
    FieldsTell(e, Made(Tag(e), Fields(e)));
  }

  lemma {:induction false} PackedUnpacked(b: seq<Byte>, widths: seq<nat>, little: bool)
    requires Unpacked(b, widths, little).Some?
    ensures var fields := Unpacked(b, widths, little).value;
      InWidth(fields, widths) && Packed(fields, widths, little) <= b
    decreases |widths|
  {
    if widths != [] {
      var w := widths[0];
      PackedUnpacked(b[w..], widths[1..], little);
      BytesOfNumber(b[..w], little);
      var fields := Unpacked(b, widths, little).value;
      assert fields[1..] == Unpacked(b[w..], widths[1..], little).value;
      assert b == b[..w] + b[w..];
      forall k | 0 <= k < |fields|
        ensures fields[k] < Span(widths[k])
      {
        if k > 0 {
          assert fields[k] == fields[1..][k - 1] && widths[k] == widths[1..][k - 1];
        }
      }
    }
  }

  /** A sample means an event exactly when it begins with the struct of that event. */
  lemma MeaningExact(sample: seq<Byte>, little: bool, e: Event)
    ensures Meaning(sample, little) == Some(e) <==> Fits(e) && Encode(e, little) <= sample
  {
    hide Packed, Unpacked, Widths;
    if Meaning(sample, little) == Some(e) {
      PackedUnpacked(sample[1..], Widths(sample[0]), little);
      assert sample == [sample[0]] + sample[1..];
    }
    if Fits(e) && Encode(e, little) <= sample {
      RoundTrip(e, little, sample[|Encode(e, little)|..]);
      assert sample == Encode(e, little) + sample[|Encode(e, little)|..];
    }
  }
}
