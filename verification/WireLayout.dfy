/**
 The events byte by byte (tracepoint/tracepoint.c, engine/event.go): what a number is made of in
 either byte order, and where each struct has each field.
 */
module WireLayout {
  import opened Options
  import opened Wire

  // ---------------------------------------------------------------- digits

  lemma SpanNumbers()
    ensures Span(0) == 1 && Span(1) == 0x100 && Span(2) == 0x1_0000 && Span(3) == 0x100_0000
    ensures Span(4) == 0x1_0000_0000 && Span(5) == 0x100_0000_0000 && Span(6) == 0x1_0000_0000_0000
    ensures Span(7) == 0x100_0000_0000_0000 && Span(8) == 0x1_0000_0000_0000_0000
  {
    Spans();
    assert Span(2) == 0x1_0000 && Span(3) == 0x100_0000;
    assert Span(5) == 0x100_0000_0000 && Span(6) == 0x1_0000_0000_0000;
  }

  lemma Multiples(m: int, d: int)
    requires m > 0
    ensures d >= 1 ==> m * d >= m
    ensures d <= -1 ==> m * d <= -m
  {
  }

  lemma TimesTimes(a: int, b: int, c: int)
    ensures a * (b * c) == (a * b) * c
  {
  }

  lemma QuotientIs(n: nat, m: nat, q: nat, r: nat)
    requires m > 0 && n == m * q + r && r < m
    ensures n / m == q
  {
    var d := n / m - q;
    assert m * d == r - n % m;
    Multiples(m, d);
  }

  lemma DivideTwice(n: nat, s: nat)
    requires s > 0
    ensures n / 256 / s == n / (256 * s)
  {
    var q, r := n / 256, n % 256;
    var q', r' := q / s, q % s;
    assert 256 * q == (256 * s) * q' + 256 * r' by {
      assert q == s * q' + r';
    }
    QuotientIs(n, 256 * s, q', 256 * r' + r);
  }

  /** The digit k of a number, to the base of 256, is the byte k: from the left in the little order, from the
      right in the big one. */
  lemma {:induction false} Digits(b: seq<Byte>, k: nat)
    requires k < |b|
    ensures Number(b, true) / Span(k) % 256 == b[k]
    ensures Number(b, false) / Span(k) % 256 == b[|b| - 1 - k]
  {
    if k > 0 {
      var n := |b| - 1;
      Digits(b[1..], k - 1);
      Digits(b[..n], k - 1);
      DivideTwice(Number(b, true), Span(k - 1));
      DivideTwice(Number(b, false), Span(k - 1));
      assert Number(b, true) / 256 == Number(b[1..], true);
      assert Number(b, false) / 256 == Number(b[..n], false);
    }
  }

  lemma OneByte(b: seq<Byte>, little: bool)
    requires |b| == 1
    ensures Number(b, little) == b[0]
  {
    assert b[1..] == [] && b[..0] == [];
    assert Number([], little) == 0;
  }

  lemma TwoBytes(b: seq<Byte>)
    requires |b| == 2
    ensures Number(b, true) == b[0] as int + 0x100 * b[1] as int
    ensures Number(b, false) == 0x100 * b[0] as int + b[1] as int
  {
    OneByte(b[1..], true);
    OneByte(b[..1], false);
  }

  lemma FourBytes(b: seq<Byte>)
    requires |b| == 4
    ensures Number(b, true) == b[0] as int + 0x100 * b[1] as int + 0x1_0000 * b[2] as int + 0x100_0000 * b[3] as int
    ensures Number(b, false) == 0x100_0000 * b[0] as int + 0x1_0000 * b[1] as int + 0x100 * b[2] as int + b[3] as int
  {
    var left, right := b[..3], b[1..];
    TwoBytes(right[1..]);
    TwoBytes(left[..2]);
    assert Number(right, true) == right[0] as int + 256 * Number(right[1..], true);
    assert Number(left, false) == 256 * Number(left[..2], false) + left[2] as int;
  }

  lemma NumberNext(b: seq<Byte>)
    requires b != []
    ensures Number(b, true) == b[0] as int + 256 * Number(b[1..], true)
    ensures Number(b, false) == 256 * Number(b[..|b| - 1], false) + b[|b| - 1] as int
  {
  }

  lemma {:induction false} JoinedLittle(a: seq<Byte>, b: seq<Byte>)
    ensures Number(a + b, true) == Number(a, true) + Span(|a|) * Number(b, true)
  {
    if a == [] {
      assert a + b == b;
    } else {
      JoinedLittle(a[1..], b);
      assert (a + b)[1..] == a[1..] + b;
      NumberNext(a + b);
      NumberNext(a);
      TimesTimes(256, Span(|a| - 1), Number(b, true));
      hide Number;
    }
  }

  lemma {:induction false} JoinedBig(a: seq<Byte>, b: seq<Byte>)
    ensures Number(a + b, false) == Span(|b|) * Number(a, false) + Number(b, false)
  {
    if b == [] {
      assert a + b == a;
    } else {
      var n := |b| - 1;
      JoinedBig(a, b[..n]);
      assert (a + b)[..|a + b| - 1] == a + b[..n];
      NumberNext(a + b);
      NumberNext(b);
      TimesTimes(256, Span(n), Number(a, false));
      hide Number;
    }
  }

  /** The halves of a number of eight bytes. */
  lemma EightBytes(b: seq<Byte>)
    requires |b| == 8
    ensures Number(b, true) == Number(b[..4], true) + 0x1_0000_0000 * Number(b[4..], true)
    ensures Number(b, false) == 0x1_0000_0000 * Number(b[..4], false) + Number(b[4..], false)
  {
    SpanNumbers();
    JoinedLittle(b[..4], b[4..]);
    JoinedBig(b[..4], b[4..]);
    assert b[..4] + b[4..] == b;
  }

  // ---------------------------------------------------------------- structs

  /** One field more is read from where the last one ended. */
  lemma FieldAt(b: seq<Byte>, at: nat, w: nat, widths: seq<nat>, little: bool)
    requires at <= |b|
    ensures Unpacked(b[at..], [w] + widths, little) ==
      if |b| < at + w then None
      else
        match Unpacked(b[at + w..], widths, little)
        case None => None
        case Some(rest) => Some([Number(b[at..at + w], little)] + rest)
  {
    assert ([w] + widths)[1..] == widths;
    if |b| >= at + w {
      assert b[at..][w..] == b[at + w..] && b[at..][..w] == b[at..at + w];
    }
  }

  lemma TwoFields(b: seq<Byte>, at: nat, v: nat, w: nat, little: bool)
    requires at <= |b|
    ensures Unpacked(b[at..], [v, w], little) ==
      if |b| < at + v + w then None
      else Some([Number(b[at..at + v], little), Number(b[at + v..at + v + w], little)])
  {
    assert [v] + [w] == [v, w] && [w] + [] == [w];
    FieldAt(b, at, v, [w], little);
    if |b| >= at + v {
      FieldAt(b, at + v, w, [], little);
      if |b| >= at + v + w {
        var x, y := Number(b[at..at + v], little), Number(b[at + v..at + v + w], little);
        assert [y] + [] == [y] && [x] + [y] == [x, y];
      }
    }
  }

  lemma ThreeFields(b: seq<Byte>, at: nat, u: nat, v: nat, w: nat, little: bool)
    requires at <= |b|
    ensures Unpacked(b[at..], [u, v, w], little) ==
      if |b| < at + u + v + w then None
      else Some([Number(b[at..at + u], little), Number(b[at + u..at + u + v], little),
                 Number(b[at + u + v..at + u + v + w], little)])
  {
    hide Number;
    assert [u] + [v, w] == [u, v, w];
    FieldAt(b, at, u, [v, w], little);
    if |b| >= at + u {
      TwoFields(b, at + u, v, w, little);
      if |b| >= at + u + v + w {
        var rest := Unpacked(b[at + u..], [v, w], little).value;
        assert [Number(b[at..at + u], little)] + rest == [Number(b[at..at + u], little), rest[0], rest[1]];
      }
    }
  }

  lemma SixFields(b: seq<Byte>, little: bool)
    requires |b| >= 1
    ensures Unpacked(b[1..], [4, 4, 4, 1, 1, 8], little) ==
      if |b| < 23 then None
      else Some([Number(b[1..5], little), Number(b[5..9], little), Number(b[9..13], little),
                 Number(b[13..14], little), Number(b[14..15], little), Number(b[15..23], little)])
  {
    hide Number, Unpacked;
    assert [4] + [4, 4, 1, 1, 8] == [4, 4, 4, 1, 1, 8] && [4] + [4, 1, 1, 8] == [4, 4, 1, 1, 8];
    assert [4] + [1, 1, 8] == [4, 1, 1, 8];
    FieldAt(b, 1, 4, [4, 4, 1, 1, 8], little);
    if |b| >= 5 {
      FieldAt(b, 5, 4, [4, 1, 1, 8], little);
      if |b| >= 9 {
        FieldAt(b, 9, 4, [1, 1, 8], little);
        if |b| >= 13 {
          ThreeFields(b, 13, 1, 1, 8, little);
          if |b| >= 23 {
            var last := Unpacked(b[13..], [1, 1, 8], little).value;
            var x, y, z := Number(b[1..5], little), Number(b[5..9], little), Number(b[9..13], little);
            assert [x] + ([y] + ([z] + last)) == [x, y, z, last[0], last[1], last[2]];
          }
        }
      }
    }
  }

  /** What a sample of a read or write event says: type 0, and six fields at these places. */
  lemma RWLayout(sample: seq<Byte>, little: bool)
    requires sample != [] && sample[0] == 0
    ensures Meaning(sample, little) ==
      if |sample| < 23 then None
      else Some(RW(Number(sample[1..5], little), Number(sample[5..9], little), Number(sample[9..13], little),
                   sample[13], sample[14], Number(sample[15..23], little)))
  {
    hide Number;
    SixFields(sample, little);
    if |sample| >= 23 {
      OneByte(sample[13..14], little);
      OneByte(sample[14..15], little);
    }
  }

  lemma CloseLayout(sample: seq<Byte>, little: bool)
    requires sample != [] && sample[0] == 1
    ensures Meaning(sample, little) ==
      if |sample| < 13 then None
      else Some(Close(Number(sample[1..5], little), Number(sample[5..9], little), Number(sample[9..13], little)))
  {
    hide Number;
    ThreeFields(sample, 1, 4, 4, 4, little);
  }

  lemma ExitLayout(sample: seq<Byte>, little: bool)
    requires sample != [] && sample[0] == 2
    ensures Meaning(sample, little) ==
      if |sample| < 9 then None
      else Some(Exit(Number(sample[1..5], little), Number(sample[5..9], little)))
  {
    hide Number;
    TwoFields(sample, 1, 4, 4, little);
  }

  /** Nothing else means anything. */
  lemma OtherLayout(sample: seq<Byte>, little: bool)
    ensures sample == [] || sample[0] > 2 ==> Meaning(sample, little) == None
  {
  }

  function Sum(widths: seq<nat>): nat {
    if widths == [] then 0 else widths[0] + Sum(widths[1..])
  }

  lemma {:induction false} PackedLength(fields: seq<nat>, widths: seq<nat>, little: bool)
    requires |fields| == |widths|
    ensures |Packed(fields, widths, little)| == Sum(widths)
  {
    if fields != [] {
      PackedLength(fields[1..], widths[1..], little);
    }
  }

  lemma EncodeLength(e: Event, little: bool)
    ensures |Encode(e, little)| == if e.RW? then 23 else if e.Close? then 13 else 9
    ensures Encode(e, little)[0] == if e.RW? then 0 else if e.Close? then 1 else 2
  {
    PackedLength(Fields(e), Widths(Tag(e)), little);
    assert Sum([1, 1, 8]) == 10 && Sum([4, 4, 1, 1, 8]) == 18;
    assert Sum([4, 4]) == 8;
    hide Packed;
  }

  /** The struct of a read or write event has 23 bytes, and its fields at these places. */
  lemma RWStruct(e: Event, little: bool)
    requires e.RW? && Fits(e)
    ensures var b := Encode(e, little);
      && |b| == 23 && b[0] == 0 && Number(b[1..5], little) == e.pid && Number(b[5..9], little) == e.tid
      && Number(b[9..13], little) == e.fd && b[13] == e.fdType && b[14] == e.direction
      && Number(b[15..23], little) == e.size
  {
    var b := Encode(e, little);
    RoundTrip(e, little, []);
    assert b + [] == b;
    RWLayout(b, little);
    EncodeLength(e, little);
    hide Encode, Meaning, Number;
  }

  /** That of a close event has 13. */
  lemma CloseStruct(e: Event, little: bool)
    requires e.Close? && Fits(e)
    ensures var b := Encode(e, little);
      && |b| == 13 && b[0] == 1 && Number(b[1..5], little) == e.pid && Number(b[5..9], little) == e.tid
      && Number(b[9..13], little) == e.fd
  {
    var b := Encode(e, little);
    RoundTrip(e, little, []);
    assert b + [] == b;
    CloseLayout(b, little);
    EncodeLength(e, little);
    hide Encode, Meaning, Number;
  }

  /** And that of an exit event nine. */
  lemma ExitStruct(e: Event, little: bool)
    requires e.Exit? && Fits(e)
    ensures var b := Encode(e, little);
      |b| == 9 && b[0] == 2 && Number(b[1..5], little) == e.pid && Number(b[5..9], little) == e.tid
  {
    var b := Encode(e, little);
    RoundTrip(e, little, []);
    assert b + [] == b;
    ExitLayout(b, little);
    EncodeLength(e, little);
    hide Encode, Meaning, Number;
  }
}
