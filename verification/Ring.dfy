/**
 pkg/ring/ring.go: circular doubly linked lists.

 A ring is described by the sequence of its elements, starting at the element a
 method is called on.  An element whose `next` is null is a ring of one that has
 not been initialised yet.
 */
module Ring {
  /** The elements of s, each linked to the next and the last to the first. */
  ghost predicate Linked<T>(s: seq<Ring<T>>)
    reads s
  {
    && s != []
    && (forall i, j :: 0 <= i < j < |s| ==> s[i] != s[j])
    && (forall i :: 0 <= i < |s| - 1 ==> s[i].next == s[i + 1] && s[i + 1].prev == s[i])
    && s[|s| - 1].next == s[0] && s[0].prev == s[|s| - 1]
  }

  /** The element n places after the first, around the ring. */
  ghost function At<T>(s: seq<Ring<T>>, n: int): Ring<T>
    requires s != []
  {
    s[n % |s|]
  }

  ghost function Values<T>(s: seq<Ring<T>>): (v: seq<T>)
    reads s
    ensures |v| == |s|
  {
    seq(|s|, i requires 0 <= i < |s| reads s => s[i].value)
  }

  /** Neighbours in s[lo..hi] are linked both ways. */
  ghost predicate Chain<T>(s: seq<Ring<T>>, lo: nat, hi: nat)
    requires hi <= |s|
    reads s
  {
    forall i :: lo <= i < hi - 1 ==> s[i].next == s[i + 1] && s[i + 1].prev == s[i]
  }

  ghost predicate Tied<T>(e: Ring<T>, f: Ring<T>)
    reads e, f
  {
    e.next == f && f.prev == e
  }

  ghost predicate Distinct<T>(s: seq<Ring<T>>) {
    forall i, j :: 0 <= i < j < |s| ==> s[i] != s[j]
  }

  ghost predicate Apart<T>(a: seq<Ring<T>>, b: seq<Ring<T>>) {
    forall i, j :: 0 <= i < |a| && 0 <= j < |b| ==> a[i] != b[j]
  }

  /** b is the ring a as seen from the element k places on. */
  ghost predicate Turned<T>(a: seq<Ring<T>>, k: nat, b: seq<Ring<T>>) {
    1 <= k <= |a| && b == a[k..] + a[..k]
  }

  lemma MulBound(k: int, len: int)
    requires len > 0
    ensures k >= 1 ==> k * len >= len
    ensures k <= -1 ==> k * len <= -len
  {
  }

  lemma ModUnique(n: int, q: int, r: int, len: int)
    requires n == q * len + r && 0 <= r < len
    ensures n % len == r
  {
    var k := n / len - q;
    assert k * len == r - n % len;
    MulBound(k, len);
  }

  lemma ModStep(n: int, len: int)
    requires len > 0
    ensures (n + 1) % len == if n % len == len - 1 then 0 else n % len + 1
  {
    var q, r := n / len, n % len;
    if r == len - 1 {
      assert n + 1 == (q + 1) * len + 0;
      ModUnique(n + 1, q + 1, 0, len);
    } else {
      ModUnique(n + 1, q, r + 1, len);
    }
  }

  lemma StepAt<T>(s: seq<Ring<T>>, n: int)
    requires Linked(s)
    ensures At(s, n).next == At(s, n + 1) && At(s, n + 1).prev == At(s, n)
  {
    ModStep(n, |s|);
  }

  lemma SecondAt<T>(a: seq<Ring<T>>)
    requires |a| > 1
    ensures At(a, 1) == a[1]
  {
  }

  lemma LinkedParts<T>(a: seq<Ring<T>>)
    requires Linked(a)
    ensures Distinct(a) && Chain(a, 0, |a|) && Tied(a[|a| - 1], a[0])
  {
  }

  lemma LinkedElements<T>(s: seq<Ring<T>>)
    requires Linked(s)
    ensures s[0].Elements(s)
  {
    assert s[0].next == if |s| > 1 then s[1] else s[0];
  }

  lemma TurnLinked<T>(a: seq<Ring<T>>, k: nat)
    requires Linked(a) && 1 <= k <= |a|
    ensures Linked(a[k..] + a[..k])
    ensures forall e :: e in a[k..] + a[..k] <==> e in a
  {
    assert a == a[..k] + a[k..];
  }

  /** The elements that Link writes to, by their places. */
  lemma Ends<T>(a: seq<Ring<T>>, k: nat, b: seq<Ring<T>>)
    requires a != [] && b != []
    ensures At(a, 1) == (if |a| > 1 then a[1] else a[0]) && At(b, -1) == b[|b| - 1]
    ensures Turned(a, k, b) ==>
      1 <= k <= |a| && b[0] == (if k < |a| then a[k] else a[0]) && At(b, -1) == a[k - 1]
  {
    ModUnique(-1, -1, |b| - 1, |b|);
  }

  /** After the four writes of Link, two rings are one. */
  lemma Joined<T>(a: seq<Ring<T>>, b: seq<Ring<T>>)
    requires a != [] && b != [] && Distinct(a) && Distinct(b) && Apart(a, b)
    requires Chain(a, 1, |a|) && Chain(b, 0, |b|) && Tied(a[0], b[0])
    requires if |a| > 1 then Tied(b[|b| - 1], a[1]) && Tied(a[|a| - 1], a[0]) else Tied(b[|b| - 1], a[0])
    ensures Linked([a[0]] + b + a[1..])
  {
  }

  /** After the four writes of Link, one ring is two. */
  lemma CutOut<T>(a: seq<Ring<T>>, k: nat)
    requires 1 <= k <= |a| && Distinct(a)
    requires Chain(a, 1, k) && Chain(a, k, |a|)
    requires if k < |a| then Tied(a[0], a[k]) && Tied(a[|a| - 1], a[0]) else Tied(a[0], a[0])
    requires k > 1 ==> Tied(a[k - 1], a[1])
    ensures Linked([a[0]] + a[k..]) && (k > 1 ==> Linked(a[1..k]))
  {
  }

  class Ring<T> {
    var next: Ring?<T>
    var prev: Ring?<T>
    var value: T

    constructor (zero: T)
      ensures next == null && prev == null && value == zero
    {
      next, prev, value := null, null, zero;
    }

    /** `s` lists the ring of this element, this element first. */
    ghost predicate Elements(s: seq<Ring<T>>)
      reads s
    {
      && s != [] && s[0] == this
      && if this.next == null then |s| == 1 else Linked(s)
    }

    method Init(ghost s: seq<Ring<T>>)
      requires s == [this]
      modifies this`next, this`prev
      ensures Linked(s)
    {
      next := this;
      prev := this;
    }

    method Next(ghost s: seq<Ring<T>>) returns (p: Ring<T>)
      requires Elements(s)
      modifies this`next, this`prev
      ensures Linked(s) && p == At(s, 1)
      ensures old(Linked(s)) ==> next == old(next) && prev == old(prev)
    {
      if next == null {
        assert s == [this];
        Init(s);
        return this;
      }
      return next;
    }

    method Prev(ghost s: seq<Ring<T>>) returns (p: Ring<T>)
      requires Elements(s)
      modifies this`next, this`prev
      ensures Linked(s) && p == At(s, -1)
      ensures old(Linked(s)) ==> next == old(next) && prev == old(prev)
    {
      if next == null {
        assert s == [this];
        Init(s);
        return this;
      }
      return prev;
    }

    /** Move lands n places further on, backward if n is negative. */
    method Move(ghost s: seq<Ring<T>>, n: int) returns (r: Ring<T>)
      requires Elements(s)
      modifies this`next, this`prev
      ensures Linked(s) && r == At(s, n)
      ensures old(Linked(s)) ==> next == old(next) && prev == old(prev)
    {
      if next == null {
        assert s == [this];
        Init(s);
        return this;
      }
      r := this;
      var m := n;
      assert At(s, 0) == this;
      hide At;
      if m < 0 {
        while m < 0
          invariant m <= 0 && r == At(s, n - m)
          modifies {}
        {
          StepAt(s, n - m - 1);
          r := r.prev;
          m := m + 1;
        }
      } else if m > 0 {
        while m > 0
          invariant m >= 0 && r == At(s, n - m)
          modifies {}
        {
          StepAt(s, n - m);
          r := r.next;
          m := m - 1;
        }
      }
    }

    /** A null ring has no elements. */
    static method Len(r: Ring?<T>, ghost s: seq<Ring<T>>) returns (n: nat)
      requires if r == null then s == [] else r.Elements(s)
      modifies (set e | e in s && e == r)`next, (set e | e in s && e == r)`prev
      ensures (r != null ==> Linked(s)) && n == |s|
    {
      n := 0;
      if r != null {
        n := 1;
        var p := r.Next(s);
        assert p == if 1 < |s| then s[1] else s[0];
        hide At;
        while p != r
          invariant 1 <= n <= |s| && p == if n < |s| then s[n] else s[0]
          modifies {}
          decreases |s| - n
        {
          p := p.next;
          n := n + 1;
        }
      }
    }

    /** The values a callback of Do is given, in order; none for a null ring. */
    static method Do(r: Ring?<T>, ghost s: seq<Ring<T>>) returns (trace: seq<T>)
      requires if r == null then s == [] else r.Elements(s)
      modifies (set e | e in s && e == r)`next, (set e | e in s && e == r)`prev
      ensures (r != null ==> Linked(s)) && trace == Values(s)
    {
      trace := [];
      if r != null {
        trace := [r.value];
        var p := r.Next(s);
        assert p == if 1 < |s| then s[1] else s[0];
        hide At;
        while p != r
          invariant 1 <= |trace| <= |s| && p == if |trace| < |s| then s[|trace|] else s[0]
          invariant forall i :: 0 <= i < |trace| ==> trace[i] == s[i].value
          modifies {}
          decreases |s| - |trace|
        {
          trace := trace + [p.value];
          p := p.next;
        }
      }
    }

    /** The four writes of Link. */
    method Relink(ghost a: seq<Ring<T>>, s: Ring<T>, ghost b: seq<Ring<T>>, ghost k: nat, n: Ring<T>, p: Ring<T>)
      requires Linked(a) && Linked(b) && a[0] == this && b[0] == s && (Apart(a, b) || Turned(a, k, b))
      requires n == At(a, 1) && p == At(b, -1)
      modifies this`next, s`prev, n`prev, p`next
      ensures Apart(a, b) ==> Linked([this] + b + a[1..])
      ensures Turned(a, k, b) ==> Linked([this] + a[k..]) && (k > 1 ==> Linked(a[1..k]))
    {
      LinkedParts(a);
      LinkedParts(b);
      Ends(a, k, b);
      hide At, Linked, Turned;
      next := s;
      s.prev := this;
      n.prev := p;
      p.next := n;
      if Turned(a, k, b) {
        hide Apart;
        CutOut(a, k);
      } else {
        Joined(a, b);
      }
    }

    /** Links this element to s.  Of two rings it makes one, with the elements of s
        right after this one; within one ring, where s is the element k places on
        (once around for this element itself), it cuts the elements between out. */
    method Link(ghost a: seq<Ring<T>>, s: Ring?<T>, ghost b: seq<Ring<T>>, ghost k: nat) returns (n: Ring<T>)
      requires Elements(a) && (s != null ==> s.Elements(b) && (Apart(a, b) || Turned(a, k, b)))
      modifies (set e | e in a + b)`next, (set e | e in a + b)`prev
      ensures n == At(a, 1)
      ensures s == null ==> Linked(a)
      ensures s != null && Apart(a, b) ==> Linked([this] + b + a[1..])
      ensures s != null && Turned(a, k, b) ==> Linked([this] + a[k..]) && (k > 1 ==> Linked(a[1..k]))
    {
      n := Next(a);
      if s != null {
        var p := s.Prev(b);
        Relink(a, s, b, k, n, p);
      }
    }

    /** Removes the n % Len elements after this one; none if that is 0. */
    method Unlink(ghost a: seq<Ring<T>>, n: int) returns (r: Ring?<T>)
      requires Elements(a)
      modifies (set e | e in a)`next, (set e | e in a)`prev
      ensures n <= 0 ==> r == null
      ensures n > 0 ==> var m := n % |a|;
        && Linked([this] + a[m + 1..]) && r == At(a, 1)
        && (m > 0 ==> Linked(a[1..m + 1]) && r == a[1])
        && (m == 0 ==> Linked(a))
    {
      if n <= 0 {
        return null;
      }
      var s := Move(a, n + 1);
      ghost var k := n % |a| + 1;
      ghost var b := a[k..] + a[..k];
      ModStep(n, |a|);
      Ends(a, k, b);
      assert s == b[0];
      hide At;
      TurnLinked(a, k);
      LinkedElements(a);
      LinkedElements(b);
      hide Linked, Apart, Ring.Elements;
      assert [this] + a[1..] == a;
      r := Link(a, s, b, k);
      hide Turned;
      if k > 1 {
        SecondAt(a);
      }
    }
  }

  /** A new ring of n elements, each with the zero value. */
  method NewRing<T>(n: int, zero: T) returns (r: Ring?<T>, ghost s: seq<Ring<T>>)
    ensures n <= 0 ==> r == null
    ensures n > 0 ==> r != null && |s| == n && s[0] == r && Linked(s) && Values(s) == seq(n, i => zero)
    ensures forall i :: 0 <= i < |s| ==> fresh(s[i])
  {
    if n <= 0 {
      return null, [];
    }
    r := new Ring(zero);
    s := [r];
    var p := r;
    for i := 1 to n
      invariant |s| == i && s[0] == r && s[i - 1] == p
      invariant forall j :: 0 <= j < |s| ==> fresh(s[j]) && s[j].value == zero
      invariant forall j, k :: 0 <= j < k < |s| ==> s[j] != s[k]
      invariant forall j :: 0 <= j < |s| - 1 ==> s[j].next == s[j + 1] && s[j + 1].prev == s[j]
    {
      var e := new Ring(zero);
      e.prev := p;
      p.next := e;
      p := e;
      s := s + [e];
    }
    p.next := r;
    r.prev := p;
  }
}
