/**
 The two implementations of the Ringer interface: headers over one backing array
 (pkg/ring/array_ring.go) and headers over one linked ring (pkg/ring/link_ring.go).
 Both are proved against a window of n values and a position in it.
 */
module Ringers {
  import opened R = Ring

  function After(i: nat, n: nat): nat
    requires i < n
  {
    if i + 1 == n then 0 else i + 1
  }

  function Before(i: nat, n: nat): nat
    requires i < n
  {
    if i == 0 then n - 1 else i - 1
  }

  // ---------------------------------------------------------------- array_ring.go

  datatype Slot<+T> = Slot(valuable: bool, value: T)

  /** The slots in the order Do meets them, starting at i. */
  function From<X>(slots: seq<X>, i: nat): seq<X>
    requires i <= |slots|
  {
    slots[i..] + slots[..i]
  }

  /** The values of the slots that have been set. */
  function Valued<T>(slots: seq<Slot<T>>): seq<T> {
    if slots == [] then []
    else (if slots[0].valuable then [slots[0].value] else []) + Valued(slots[1..])
  }

  lemma {:induction false} ValuedAppend<T>(slots: seq<Slot<T>>, s: Slot<T>)
    ensures Valued(slots + [s]) == Valued(slots) + if s.valuable then [s.value] else []
  {
    if slots != [] {
      ValuedAppend(slots[1..], s);
      assert (slots + [s])[1..] == slots[1..] + [s];
    }
  }

  /** Once every slot is set, Do meets every value. */
  lemma {:induction false} ValuedAll<T>(slots: seq<Slot<T>>)
    requires forall j :: 0 <= j < |slots| ==> slots[j].valuable
    ensures |Valued(slots)| == |slots|
    ensures forall j :: 0 <= j < |slots| ==> Valued(slots)[j] == slots[j].value
  {
    if slots != [] {
      ValuedAll(slots[1..]);
    }
  }

  class ArrayRing<T> {
    const len: nat
    const slots: array<Slot<T>>
    var i: nat

    ghost predicate Valid()
      reads this
    {
      len >= 1 && slots.Length == len && i < len
    }

    constructor New(n: nat, zero: T)
      requires n >= 1
      ensures Valid() && len == n && i == 0 && fresh(slots)
      ensures forall j :: 0 <= j < n ==> slots[j] == Slot(false, zero)
    {
      len := n;
      slots := new Slot<T>[n](_ => Slot(false, zero));
      i := 0;
    }

    constructor Header(slots: array<Slot<T>>, i: nat)
      requires i < slots.Length
      ensures Valid() && this.slots == slots && len == slots.Length && this.i == i
    {
      this.len := slots.Length;
      this.slots := slots;
      this.i := i;
    }

    method Next() returns (r: ArrayRing<T>)
      requires Valid()
      ensures fresh(r) && r.Valid() && r.slots == slots && r.i == After(i, len)
    {
      var j := i + 1;
      if j == len { j := 0; }
      r := new ArrayRing.Header(slots, j);
    }

    method Prev() returns (r: ArrayRing<T>)
      requires Valid()
      ensures fresh(r) && r.Valid() && r.slots == slots && r.i == Before(i, len)
    {
      var j := i - 1;
      if j == -1 { j := len - 1; }
      r := new ArrayRing.Header(slots, j);
    }

    method SetValue(t: T)
      requires Valid()
      modifies slots
      ensures slots[..] == old(slots[..])[i := Slot(true, t)]
    {
      slots[i] := Slot(true, t);
    }

    method GetValue() returns (t: T)
      requires Valid()
      ensures t == slots[i].value
    {
      t := slots[i].value;
    }

    /** The values the callback is given; the position is back where it was. */
    method Do() returns (trace: seq<T>)
      requires Valid()
      modifies this`i
      ensures Valid() && i == old(i) && trace == Valued(From(slots[..], i))
    {
      var start := i;
      ghost var around := From(slots[..], start);
      ghost var met := 0;
      trace := [];
      assert around[..0] == [];
      while true
        invariant Valid() && 0 <= met < len && trace == Valued(around[..met])
        invariant i == if start + met < len then start + met else start + met - len
        decreases len - met
      {
        assert around[met] == slots[i];
        ValuedAppend(around[..met], around[met]);
        assert around[..met + 1] == around[..met] + [around[met]];
        if slots[i].valuable {
          trace := trace + [slots[i].value];
        }
        met := met + 1;
        i := i + 1;
        if i == len { i := 0; }
        if i == start { break; }
      }
      assert met == len && around[..met] == around;
    }
  }

  // ---------------------------------------------------------------- link_ring.go

  lemma FromLinked<T>(base: seq<Ring<T>>, at: nat)
    requires Linked(base) && at < |base|
    ensures Linked(From(base, at)) && From(base, at)[0] == base[at]
  {
    if at == 0 {
      assert From(base, 0) == base;
    } else {
      TurnLinked(base, at);
    }
  }

  lemma LinkedBack<T>(base: seq<Ring<T>>, at: nat)
    requires at < |base| && Linked(From(base, at))
    ensures Linked(base)
  {
    if at == 0 {
      assert From(base, 0) == base;
    } else {
      TurnLinked(From(base, at), |base| - at);
      assert base == From(base, at)[|base| - at..] + From(base, at)[..|base| - at];
    }
  }

  lemma NeighboursOf<T>(base: seq<Ring<T>>, at: nat)
    requires at < |base|
    ensures At(From(base, at), 1) == base[After(at, |base|)]
    ensures At(From(base, at), -1) == base[Before(at, |base|)]
  {
    var s := From(base, at);
    ModUnique(-1, -1, |s| - 1, |s|);
    assert 1 % |s| == if |s| > 1 then 1 else 0 by {
      if |s| > 1 {
        ModUnique(1, 0, 1, |s|);
      }
    }
    assert At(s, 1) == (if |s| > 1 then s[1] else s[0]) && At(s, -1) == s[|s| - 1];
    hide At;
  }

  class LinkRing<T> {
    const ring: Ring<T>
    const len: nat
    /** The elements of the whole ring, from wherever it was made, and this header's place. */
    ghost const base: seq<Ring<T>>
    ghost const at: nat

    ghost predicate Valid()
      reads base
    {
      Linked(base) && |base| == len && at < len && base[at] == ring
    }

    constructor New(n: nat, zero: T)
      requires n >= 1
      ensures Valid() && len == n && at == 0 && Values(base) == seq(n, j => zero)
      ensures forall j :: 0 <= j < |base| ==> fresh(base[j])
    {
      var r, s := NewRing(n, zero);
      ring := r;
      len := n;
      base := s;
      at := 0;
    }

    constructor Header(ring: Ring<T>, len: nat, ghost base: seq<Ring<T>>, ghost at: nat)
      requires Linked(base) && |base| == len && at < len && base[at] == ring
      ensures Valid() && this.base == base && this.at == at && this.len == len
    {
      this.ring := ring;
      this.len := len;
      this.base := base;
      this.at := at;
    }

    method Next() returns (r: LinkRing<T>)
      requires Valid()
      modifies ring`next, ring`prev
      ensures Valid() && fresh(r) && r.Valid() && r.base == base && r.len == len && r.at == After(at, len)
    {
      ghost var s := From(base, at);
      FromLinked(base, at);
      LinkedElements(s);
      NeighboursOf(base, at);
      var p := ring.Next(s);
      r := new LinkRing.Header(p, len, base, After(at, len));
    }

    method Prev() returns (r: LinkRing<T>)
      requires Valid()
      modifies ring`next, ring`prev
      ensures Valid() && fresh(r) && r.Valid() && r.base == base && r.len == len && r.at == Before(at, len)
    {
      ghost var s := From(base, at);
      FromLinked(base, at);
      LinkedElements(s);
      NeighboursOf(base, at);
      var p := ring.Prev(s);
      r := new LinkRing.Header(p, len, base, Before(at, len));
    }

    method SetValue(v: T)
      requires Valid()
      modifies ring`value
      ensures Valid() && Values(base) == old(Values(base))[at := v]
    {
      ring.value := v;
    }

    method GetValue() returns (t: T)
      requires Valid()
      ensures t == Values(base)[at]
    {
      t := ring.value;
    }

    method Do() returns (trace: seq<T>)
      requires Valid()
      modifies ring`next, ring`prev
      ensures Valid() && Values(base) == old(Values(base)) && trace == From(Values(base), at)
    {
      ghost var s := From(base, at);
      FromLinked(base, at);
      LinkedElements(s);
      trace := Ring.Do(ring, s);
      LinkedBack(base, at);
    }
  }

  // ---------------------------------------------------------------- the two agree

  /** What a client does with its headers, numbered in the order it obtained them. */
  datatype RingOp<T> = GoNext(h: nat) | GoPrev(h: nat) | Set(h: nat, v: T) | Fetch(h: nat) | Walk(h: nat)

  /** The reference: n values, which of them have been set, the place of each
      header, and what the client has been told so far. */
  datatype Client<T> = Client(values: seq<T>, marked: seq<bool>, places: seq<nat>, told: seq<seq<T>>)

  ghost predicate ClientOk<T>(c: Client<T>, n: nat) {
    |c.values| == |c.marked| == n && forall h :: 0 <= h < |c.places| ==> c.places[h] < n
  }

  ghost function Perform<T>(c: Client<T>, n: nat, op: RingOp<T>): (c': Client<T>)
    requires ClientOk(c, n)
    ensures ClientOk(c', n)
  {
    if op.h >= |c.places| then c
    else
      var at := c.places[op.h];
      match op
      case GoNext(_) => c.(places := c.places + [After(at, n)])
      case GoPrev(_) => c.(places := c.places + [Before(at, n)])
      case Set(_, v) => c.(values := c.values[at := v], marked := c.marked[at := true])
      case Fetch(_) => c.(told := c.told + [[c.values[at]]])
      case Walk(_) =>
        if forall j :: 0 <= j < n ==> c.marked[j] then c.(told := c.told + [From(c.values, at)]) else c
  }

  ghost function PerformAll<T>(n: nat, zero: T, ops: seq<RingOp<T>>): (c: Client<T>)
    requires n >= 1
    ensures ClientOk(c, n)
  {
    if ops == [] then Client(seq(n, _ => zero), seq(n, _ => false), [0], [])
    else Perform(PerformAll(n, zero, ops[..|ops| - 1]), n, ops[|ops| - 1])
  }

  /** A header of either implementation, over these slots and over this ring, at the same place. */
  ghost predicate InStep<T>(a: ArrayRing<T>, l: LinkRing<T>, slots: array<Slot<T>>, base: seq<Ring<T>>)
    reads a
  {
    && a.Valid() && a.slots == slots && l.base == base
    && a.len == l.len == |base| && a.i == l.at && base[l.at] == l.ring
  }

  ghost predicate SameValues<T>(slots: seq<Slot<T>>, values: seq<T>) {
    |slots| == |values| && forall j :: 0 <= j < |slots| ==> slots[j].value == values[j]
  }

  lemma FullWalk<T>(slots: seq<Slot<T>>, values: seq<T>, i: nat)
    requires SameValues(slots, values) && i < |slots| && forall j :: 0 <= j < |slots| ==> slots[j].valuable
    ensures Valued(From(slots, i)) == From(values, i)
  {
    ValuedAll(From(slots, i));
  }

  method MoveBoth<T>(a: ArrayRing<T>, l: LinkRing<T>, forward: bool) returns (a': ArrayRing<T>, l': LinkRing<T>)
    requires InStep(a, l, a.slots, l.base) && Linked(l.base)
    modifies l.ring`next, l.ring`prev
    ensures fresh(a') && InStep(a', l', a.slots, l.base) && Linked(l.base) && Values(l.base) == old(Values(l.base))
    ensures a'.i == if forward then After(a.i, a.len) else Before(a.i, a.len)
  {
    if forward {
      a' := a.Next();
      l' := l.Next();
    } else {
      a' := a.Prev();
      l' := l.Prev();
    }
  }

  method SetBoth<T>(a: ArrayRing<T>, l: LinkRing<T>, v: T)
    requires InStep(a, l, a.slots, l.base) && Linked(l.base) && SameValues(a.slots[..], Values(l.base))
    modifies a.slots, l.ring`value
    ensures InStep(a, l, a.slots, l.base) && Linked(l.base) && SameValues(a.slots[..], Values(l.base))
    ensures Values(l.base) == old(Values(l.base))[a.i := v]
    ensures a.slots[..] == old(a.slots[..])[a.i := Slot(true, v)]
  {
    a.SetValue(v);
    l.SetValue(v);
  }

  method WalkBoth<T>(a: ArrayRing<T>, l: LinkRing<T>) returns (x: seq<T>, y: seq<T>)
    requires InStep(a, l, a.slots, l.base) && Linked(l.base) && SameValues(a.slots[..], Values(l.base))
    requires forall j :: 0 <= j < a.len ==> a.slots[j].valuable
    modifies a`i, l.ring`next, l.ring`prev
    ensures InStep(a, l, a.slots, l.base) && Linked(l.base) && Values(l.base) == old(Values(l.base))
    ensures x == y == From(Values(l.base), a.i) && a.i == old(a.i)
  {
    x := a.Do();
    y := l.Do();
    FullWalk(a.slots[..], Values(l.base), a.i);
  }

  /** A client of both implementations at once, beside the reference. */
  class Bench<T> {
    const n: nat
    ghost const slots: array<Slot<T>>
    ghost const base: seq<Ring<T>>
    var arrays: seq<ArrayRing<T>>
    var links: seq<LinkRing<T>>
    var marked: seq<bool>
    var fromArray: seq<seq<T>>
    var fromLink: seq<seq<T>>
    ghost var c: Client<T>

    ghost predicate Valid()
      reads this, arrays, slots, base
    {
      && n >= 1 && slots.Length == |base| == n && Linked(base) && ClientOk(c, n)
      && |arrays| == |links| == |c.places|
      && (forall h :: 0 <= h < |arrays| ==> InStep(arrays[h], links[h], slots, base) && arrays[h].i == c.places[h])
      && SameValues(slots[..], Values(base)) && Values(base) == c.values
      && marked == c.marked && (forall j :: 0 <= j < n && marked[j] ==> slots[j].valuable)
      && fromArray == fromLink == c.told
    }

    constructor (n: nat, zero: T)
      requires n >= 1
      ensures Valid() && this.n == n && c == PerformAll(n, zero, [])
      ensures fresh(slots) && (forall j :: 0 <= j < |base| ==> fresh(base[j])) && (forall a :: a in arrays ==> fresh(a))
    {
      var a := new ArrayRing.New(n, zero);
      var l := new LinkRing.New(n, zero);
      this.n := n;
      slots := a.slots;
      base := l.base;
      arrays := [a];
      links := [l];
      marked := seq(n, _ => false);
      fromArray, fromLink := [], [];
      c := PerformAll(n, zero, []);
    }

    method Move(op: RingOp<T>)
      requires Valid() && op.h < |arrays| && (op.GoNext? || op.GoPrev?)
      modifies this, (set e | e in base)`next, (set e | e in base)`prev
      ensures Valid() && c == Perform(old(c), n, op)
      ensures exists a :: fresh(a) && arrays == old(arrays) + [a]
    {
      assert InStep(arrays[op.h], links[op.h], slots, base);
      var a, l := MoveBoth(arrays[op.h], links[op.h], op.GoNext?);
      arrays, links := arrays + [a], links + [l];
      c := Perform(c, n, op);
    }

    method Put(op: RingOp<T>)
      requires Valid() && op.h < |arrays| && op.Set?
      modifies this`marked, this`c, slots, (set e | e in base)`value
      ensures Valid() && c == Perform(old(c), n, op)
    {
      var a, l := arrays[op.h], links[op.h];
      assert InStep(a, l, slots, base);
      SetBoth(a, l, op.v);
      marked := marked[a.i := true];
      c := Perform(c, n, op);
    }

    method Look(op: RingOp<T>)
      requires Valid() && op.h < |arrays| && op.Fetch?
      modifies this`fromArray, this`fromLink, this`c
      ensures Valid() && c == Perform(old(c), n, op)
    {
      var a, l := arrays[op.h], links[op.h];
      assert InStep(a, l, slots, base);
      var x := a.GetValue();
      var y := l.GetValue();
      fromArray, fromLink := fromArray + [[x]], fromLink + [[y]];
      c := Perform(c, n, op);
    }

    method Tour(op: RingOp<T>)
      requires Valid() && op.h < |arrays| && op.Walk?
      modifies this`fromArray, this`fromLink, this`c, arrays, (set e | e in base)`next, (set e | e in base)`prev
      ensures Valid() && c == Perform(old(c), n, op)
    {
      if forall j :: 0 <= j < n ==> marked[j] {
        var a, l := arrays[op.h], links[op.h];
        assert InStep(a, l, slots, base);
        var x, y := WalkBoth(a, l);
        fromArray, fromLink := fromArray + [x], fromLink + [y];
        c := Perform(c, n, op);
      }
    }
  }

  /** Any client is told what the reference says, by an array ring and by a linked
      ring alike: whatever headers it makes and sets values through, each value
      fetched, and each walk over a ring whose slots have all been set. */
  method RunBoth<T>(n: nat, zero: T, ops: seq<RingOp<T>>) returns (fromArray: seq<seq<T>>, fromLink: seq<seq<T>>)
    requires n >= 1
    ensures fromArray == fromLink == PerformAll(n, zero, ops).told
  {
    var bench := new Bench(n, zero);
    hide Bench.Valid, Perform;
    for k := 0 to |ops|
      invariant bench.Valid() && fresh(bench) && bench.n == n && bench.c == PerformAll(n, zero, ops[..k])
      invariant fresh(bench.slots) && (forall j :: 0 <= j < |bench.base| ==> fresh(bench.base[j]))
      invariant forall a :: a in bench.arrays ==> fresh(a)
    {
      var op := ops[k];
      assert ops[..k + 1] == ops[..k] + [op];
      assert ops[..k + 1][..k] == ops[..k];
      if op.h < |bench.arrays| {
        if op.GoNext? || op.GoPrev? {
          bench.Move(op);
        } else if op.Set? {
          bench.Put(op);
        } else if op.Fetch? {
          bench.Look(op);
        } else {
          bench.Tour(op);
        }
      }
    }
    assert ops[..|ops|] == ops;
    return bench.fromArray, bench.fromLink;
  }
}
