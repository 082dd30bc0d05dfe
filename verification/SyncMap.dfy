/**
 The map of pkg/sync/map.go as one goroutine drives it: entries are heap objects
 updated in place, and every operation is proved against a plain finite map.
 With a single caller a compare-and-swap always succeeds, so its retry loop is one
 test and one assignment; SyncMapMachine has the loops.
 */
module SyncMap {
  import opened Options

  datatype Pointer<+V> = Nil | Expunged | To(value: V)

  function ValueOf<V>(p: Pointer<V>): Option<V> {
    if p.To? then Some(p.value) else None
  }

  /** Counts the entries that dirtyLocked looks at. */
  class Meter {
    ghost var looks: nat

    ghost constructor ()
      ensures looks == 0
    {
      looks := 0;
    }
  }

  /** A caller's valueFn: the value of each call, and how often it was called. */
  class Maker<V> {
    const make: nat -> V
    var calls: nat

    constructor (make: nat -> V)
      ensures this.make == make && calls == 0
    {
      this.make := make;
      calls := 0;
    }

    method Call() returns (v: V)
      modifies this
      ensures v == make(old(calls)) && calls == old(calls) + 1
    {
      v := make(calls);
      calls := calls + 1;
    }
  }

  class Entry<K, V> {
    ghost const key: K
    var p: Pointer<V>

    constructor (ghost key: K, value: V)
      ensures this.key == key && p == To(value)
    {
      this.key := key;
      this.p := To(value);
    }

    method Load() returns (r: Option<V>)
      ensures r == ValueOf(p)
    {
      r := if p.To? then Some(p.value) else None;
    }

    method Delete() returns (r: Option<V>)
      modifies this
      ensures r == ValueOf(old(p))
      ensures p == if old(p).To? then Nil else old(p)
    {
      if !p.To? { return None; }
      r := Some(p.value);
      p := Nil;
    }

    method TryExpungeLocked(ghost meter: Meter) returns (isExpunged: bool)
      modifies this, meter
      ensures isExpunged <==> !old(p).To?
      ensures p == if old(p).To? then old(p) else Expunged
      ensures meter.looks == old(meter.looks) + 1
    {
      meter.looks := meter.looks + 1;
      if p.Nil? { p := Expunged; }
      isExpunged := p.Expunged?;
    }
  }

  datatype ReadOnly<K, V> = ReadOnly(m: map<K, Entry<K, V>>, amended: bool)

  function Get<K, V>(m: map<K, V>, k: K): Option<V> {
    if k in m then Some(m[k]) else None
  }

  // ---------------------------------------------------------------- operations on a plain map

  datatype Op<K, V> = LoadOp(k: K) | StoreOp(k: K, v: V) | LoadOrStoreOp(k: K, v: V) | DeleteOp(k: K)

  /** What a caller is told: a value if there is one, and whether it was there before. */
  datatype Reply<V> = Reply(value: Option<V>, there: bool)

  /** An operation on a plain map. */
  function Plain<K, V>(m: map<K, V>, op: Op<K, V>): (map<K, V>, Reply<V>) {
    var was := Get(m, op.k);
    match op
    case LoadOp(_) => (m, Reply(was, was.Some?))
    case StoreOp(k, v) => (m[k := v], Reply(None, false))
    case LoadOrStoreOp(k, v) => if was.Some? then (m, Reply(was, true)) else (m[k := v], Reply(Some(v), false))
    case DeleteOp(k) => (m - {k}, Reply(was, was.Some?))
  }

  function PlainEach<K, V>(m: map<K, V>, ops: seq<Op<K, V>>): map<K, V> {
    if ops == [] then m else Plain(PlainEach(m, ops[..|ops| - 1]), ops[|ops| - 1]).0
  }

  function Deletes<K, V>(op: Op<K, V>): set<K> {
    if op.DeleteOp? then {op.k} else {}
  }

  function DeletedBy<K, V>(ops: seq<Op<K, V>>): set<K> {
    if ops == [] then {} else DeletedBy(ops[..|ops| - 1]) + Deletes(ops[|ops| - 1])
  }

  // ---------------------------------------------------------------- what Range visits

  /** The plain map after these callbacks. */
  function AfterVisits<K, V>(m: map<K, V>, visited: seq<(K, V)>, act: (K, V) -> seq<Op<K, V>>): map<K, V> {
    if visited == [] then m
    else
      var last := visited[|visited| - 1];
      PlainEach(AfterVisits(m, visited[..|visited| - 1], act), act(last.0, last.1))
  }

  /** The keys that they deleted. */
  function Gone<K, V>(visited: seq<(K, V)>, act: (K, V) -> seq<Op<K, V>>): set<K> {
    if visited == [] then {}
    else
      var last := visited[|visited| - 1];
      Gone(visited[..|visited| - 1], act) + DeletedBy(act(last.0, last.1))
  }

  /** The operations that they performed. */
  function Calls<K, V>(visited: seq<(K, V)>, act: (K, V) -> seq<Op<K, V>>): nat {
    if visited == [] then 0
    else
      var last := visited[|visited| - 1];
      Calls(visited[..|visited| - 1], act) + |act(last.0, last.1)|
  }

  ghost function Keys<K, V>(visited: seq<(K, V)>): set<K> {
    set i | 0 <= i < |visited| :: visited[i].0
  }

  /** Each key once, with the value it has just then; the map changes as the callbacks say, and only so. */
  ghost predicate Sound<K, V>(before: map<K, V>, now: map<K, V>, visited: seq<(K, V)>, act: (K, V) -> seq<Op<K, V>>) {
    && (forall i, j :: 0 <= i < j < |visited| ==> visited[i].0 != visited[j].0)
    && (forall i :: 0 <= i < |visited| ==>
          Get(AfterVisits(before, visited[..i], act), visited[i].0) == Some(visited[i].1))
    && now == AfterVisits(before, visited, act)
  }

  /** Every callback but perhaps the last asked to go on; if the last did too, every
      key of the start was visited that no callback deleted. */
  ghost predicate Ranged<K, V>(before: map<K, V>, now: map<K, V>, visited: seq<(K, V)>,
                               act: (K, V) -> seq<Op<K, V>>, go: (K, V) -> bool) {
    && Sound(before, now, visited, act)
    && (forall i :: 0 <= i < |visited| - 1 ==> go(visited[i].0, visited[i].1))
    && (visited == [] || go(visited[|visited| - 1].0, visited[|visited| - 1].1) ==>
          before.Keys <= Keys(visited) + Gone(visited, act))
  }

  /** In the middle of it, with the keys in todo to come. */
  ghost predicate Visiting<K, V>(before: map<K, V>, now: map<K, V>, todo: set<K>, visited: seq<(K, V)>,
                                 act: (K, V) -> seq<Op<K, V>>, go: (K, V) -> bool) {
    && Sound(before, now, visited, act) && Keys(visited) !! todo
    && before.Keys <= todo + Keys(visited) + Gone(visited, act)
    && forall i :: 0 <= i < |visited| ==> go(visited[i].0, visited[i].1)
  }

  /** The last callback asked to stop. */
  ghost predicate Stopping<K, V>(before: map<K, V>, now: map<K, V>, visited: seq<(K, V)>,
                                 act: (K, V) -> seq<Op<K, V>>, go: (K, V) -> bool) {
    && Sound(before, now, visited, act)
    && |visited| > 0 && !go(visited[|visited| - 1].0, visited[|visited| - 1].1)
    && forall i :: 0 <= i < |visited| - 1 ==> go(visited[i].0, visited[i].1)
  }

  lemma StoppedRanges<K, V>(before: map<K, V>, now: map<K, V>, visited: seq<(K, V)>,
                            act: (K, V) -> seq<Op<K, V>>, go: (K, V) -> bool)
    requires Stopping(before, now, visited, act, go)
    ensures Ranged(before, now, visited, act, go)
  {
  }

  lemma DoneRanges<K, V>(before: map<K, V>, now: map<K, V>, visited: seq<(K, V)>,
                         act: (K, V) -> seq<Op<K, V>>, go: (K, V) -> bool)
    requires Visiting(before, now, {}, visited, act, go)
    ensures Ranged(before, now, visited, act, go)
  {
  }

  lemma NoVisits<K, V>(act: (K, V) -> seq<Op<K, V>>)
    ensures Gone([], act) == {} && Calls([], act) == 0
  {
  }

  lemma VisitStart<K, V>(before: map<K, V>, todo: set<K>, act: (K, V) -> seq<Op<K, V>>, go: (K, V) -> bool)
    requires before.Keys <= todo
    ensures Visiting(before, before, todo, [], act, go)
  {
  }

  lemma VisitNone<K, V>(before: map<K, V>, now: map<K, V>, todo: set<K>, visited: seq<(K, V)>,
                        act: (K, V) -> seq<Op<K, V>>, go: (K, V) -> bool, k: K)
    requires Visiting(before, now, todo, visited, act, go) && k in todo
    requires k !in before.Keys - Gone(visited, act)
    ensures Visiting(before, now, todo - {k}, visited, act, go)
  {
  }

  lemma VisitedMore<K, V>(visited: seq<(K, V)>, act: (K, V) -> seq<Op<K, V>>, k: K, v: V)
    ensures var visited' := visited + [(k, v)];
      && Keys(visited') == Keys(visited) + {k}
      && Gone(visited', act) == Gone(visited, act) + DeletedBy(act(k, v))
      && Calls(visited', act) == Calls(visited, act) + |act(k, v)|
  {
    var visited' := visited + [(k, v)];
    assert visited'[..|visited|] == visited && visited'[|visited|] == (k, v);
    assert forall i :: 0 <= i < |visited| ==> visited'[i] == visited[i];
  }

  lemma SoundMore<K, V>(before: map<K, V>, now: map<K, V>, visited: seq<(K, V)>,
                        act: (K, V) -> seq<Op<K, V>>, k: K, v: V)
    requires Sound(before, now, visited, act) && Get(now, k) == Some(v) && k !in Keys(visited)
    ensures Sound(before, PlainEach(now, act(k, v)), visited + [(k, v)], act)
  {
    var visited' := visited + [(k, v)];
    var n := |visited|;
    assert visited'[..n] == visited && visited'[n] == (k, v);
    assert AfterVisits(before, visited', act) == PlainEach(now, act(k, v));
    hide PlainEach, AfterVisits;
    forall i | 0 <= i <= n
      ensures Get(AfterVisits(before, visited'[..i], act), visited'[i].0) == Some(visited'[i].1)
    {
      assert visited'[..i] == visited[..i];
    }
    forall i, j | 0 <= i < j <= n
      ensures visited'[i].0 != visited'[j].0
    {
      assert visited[i].0 in Keys(visited);
    }
  }

  /** One more callback, which sees the mapping of the moment. */
  lemma VisitOne<K, V>(before: map<K, V>, now: map<K, V>, todo: set<K>, visited: seq<(K, V)>,
                       act: (K, V) -> seq<Op<K, V>>, go: (K, V) -> bool, k: K, v: V)
    requires Visiting(before, now, todo, visited, act, go) && k in todo && Get(now, k) == Some(v)
    ensures var visited' := visited + [(k, v)];
      var now' := PlainEach(now, act(k, v));
      if go(k, v) then Visiting(before, now', todo - {k}, visited', act, go)
      else Stopping(before, now', visited', act, go)
  {
    var visited' := visited + [(k, v)];
    VisitedMore(visited, act, k, v);
    SoundMore(before, now, visited, act, k, v);
    assert forall i :: 0 <= i < |visited| ==> visited'[i] == visited[i];
    hide Sound, Keys, Gone, PlainEach, DeletedBy, Calls;
  }

  // ---------------------------------------------------------------- the map

  class Map<K(==), V> {
    var read: ReadOnly<K, V>
    var dirty: Option<map<K, Entry<K, V>>>
    var misses: nat

    /** The plain map this object stands for. */
    ghost var Contents: map<K, V>
    /** The entries this map has made. */
    ghost var Repr: set<Entry<K, V>>
    /** Counts the entries looked at by dirtyLocked. */
    ghost const meter: Meter
    /** Calls of missLocked, and entries promoted by Range, so far. */
    ghost var missed: nat
    ghost var ranged: nat

    ghost function Dirty(): map<K, Entry<K, V>>
      reads this
    {
      if dirty.Some? then dirty.value else map[]
    }

    /** Every entry of the table was made by this map, for the key it is found under. */
    ghost predicate Owned(table: map<K, Entry<K, V>>)
      reads this
    {
      forall k :: k in table ==> table[k] in Repr && table[k].key == k
    }

    /** No dirty entry is expunged, dirty agrees with read, and an entry only dirty
        has holds a value. */
    ghost predicate DirtyOk()
      reads this, Repr
      requires Owned(read.m) && Owned(Dirty())
    {
      forall k :: k in Dirty() ==>
        !Dirty()[k].p.Expunged? && if k in read.m then Dirty()[k] == read.m[k] else Dirty()[k].p.To?
    }

    /** dirty has every live entry of read; without dirty nothing in read is expunged. */
    ghost predicate Covers()
      reads this, Repr
      requires Owned(read.m)
    {
      forall k :: k in read.m && !read.m[k].p.Expunged? && dirty.Some? ==> k in Dirty()
    }

    ghost predicate NoneExpunged()
      reads this, Repr
      requires Owned(read.m)
    {
      dirty.None? ==> forall k :: k in read.m ==> !read.m[k].p.Expunged?
    }

    /** Contents maps each key as the entry a lookup finds does. */
    ghost predicate Represents()
      reads this, Repr
      requires Owned(read.m) && Owned(Dirty())
    {
      && (forall k :: k in read.m ==> Get(Contents, k) == ValueOf(read.m[k].p))
      && (forall k :: k in Dirty() && k !in read.m ==> Get(Contents, k) == ValueOf(Dirty()[k].p))
      && Contents.Keys <= read.m.Keys + Dirty().Keys
    }

    ghost predicate Valid()
      reads this, Repr
    {
      && Owned(read.m) && Owned(Dirty())
      && (read.amended <==> dirty.Some?)
      && DirtyOk() && Covers() && NoneExpunged() && Represents()
    }

    /** A table that was read once finds the entry as read does, or finds it expunged. */
    ghost predicate Hold(e: Entry<K, V>)
      reads this, e
    {
      (e.key in read.m && read.m[e.key] == e) || e.p.Expunged?
    }

    /** What a Range in progress relies on: its entries stay so, and only a deletion of its
        key takes the value of an entry away. */
    twostate predicate Kept(gone: set<K>)
      reads this, Repr
    {
      && old(Repr) <= Repr
      && forall e :: e in old(Repr) ==>
           && (old(Hold(e)) ==> Hold(e))
           && (old(e.p).To? && e.key !in gone ==> e.p.To?)
    }

    /** A miss with this table for dirty: it is counted, and the table is promoted by the miss that makes as many
        as it has keys. */
    twostate predicate Misses(table: map<K, Entry<K, V>>)
      reads this
    {
      && missed == old(missed) + 1
      && if old(misses) + 1 < |table| then read == old(read) && dirty == Some(table) && misses == old(misses) + 1
         else read == ReadOnly(table, false) && dirty == None && misses == 0
    }

    /** A lookup of k misses if read does not have it but dirty may. */
    twostate predicate Looks(k: K, table: map<K, Entry<K, V>>)
      reads this
    {
      if k !in old(read.m) && old(read.amended) then Misses(table)
      else read == old(read) && dirty == old(dirty) && misses == old(misses) && missed == old(missed)
    }

    twostate lemma KeptSame()
      requires unchanged(this`read, this`Repr) && unchanged(Repr)
      ensures Kept({})
    {
    }

    twostate lemma KeptPromoted()
      requires old(Valid()) && old(dirty).Some? && read.m == old(Dirty())
      requires unchanged(this`Repr) && unchanged(Repr)
      ensures Kept({})
    {
    }

    /** Neither counters nor entries outside the tables matter to Valid. */
    twostate lemma Apart()
      requires old(Valid()) && unchanged(this`read, this`dirty, this`Contents, this`Repr)
      requires forall k :: k in read.m ==> read.m[k].p == old(read.m[k].p)
      requires forall k :: k in Dirty() ==> Dirty()[k].p == old(Dirty()[k].p)
      ensures Valid()
    {
    }

    /** An expunged entry of read becomes nil and a member of dirty. */
    twostate lemma Unexpunged(k: K)
      requires old(Valid()) && unchanged(this`read, this`Contents, this`Repr)
      requires k in read.m && old(read.m[k].p).Expunged? && read.m[k].p.Nil? && unchanged(Repr - {read.m[k]})
      requires old(dirty).Some? && dirty == Some(old(dirty).value[k := read.m[k]])
      ensures Valid()
    {
    }

    /** A key that only dirty has leaves it. */
    twostate lemma Removed(k: K)
      requires old(Valid()) && unchanged(this`read, this`Repr) && unchanged(Repr)
      requires k !in read.m && old(dirty).Some? && dirty == Some(old(dirty).value - {k})
      requires Contents == old(Contents) - {k}
      ensures Valid()
    {
    }

    /** dirty is made of the live entries of read, and the deleted ones are expunged. */
    twostate lemma Copied()
      requires old(Valid()) && old(dirty).None? && unchanged(this`Contents, this`Repr)
      requires read == ReadOnly(old(read).m, true) && dirty.Some? && Dirty().Keys <= read.m.Keys
      requires forall k :: k in read.m ==>
        read.m[k].p == if old(read.m[k].p).To? then old(read.m[k].p) else Expunged
      requires forall k :: k in read.m ==> (k in Dirty() <==> old(read.m[k].p).To?)
      requires forall k :: k in Dirty() ==> Dirty()[k] == read.m[k]
      ensures Valid()
    {
    }

    /** The entry a lookup of k finds. */
    ghost function Found(k: K): Entry<K, V>
      requires k in read.m || k in Dirty()
      reads this
    {
      if k in read.m then read.m[k] else Dirty()[k]
    }

    /** Writing the entry a lookup of k finds writes k in the plain map. */
    twostate lemma Written(k: K)
      requires old(Valid()) && unchanged(this`read, this`dirty, this`Repr)
      requires k in read.m || k in Dirty()
      requires unchanged(Repr - {Found(k)})
      requires old(!Found(k).p.Expunged?) && !Found(k).p.Expunged? && (k !in read.m ==> Found(k).p.To?)
      requires Contents == if Found(k).p.To? then old(Contents)[k := Found(k).p.value] else old(Contents) - {k}
      ensures Valid()
    {
    }

    /** A new entry for a key that neither table has. */
    twostate lemma Inserted(k: K, new e: Entry<K, V>)
      requires old(Valid()) && old(dirty).Some? && unchanged(this`read) && unchanged(old(Repr))
      requires k !in read.m && k !in old(Dirty()) && e.key == k && e.p.To?
      requires Repr == old(Repr) + {e}
      requires dirty == Some(old(dirty).value[k := e]) && Contents == old(Contents)[k := e.p.value]
      ensures Valid()
    {
    }

    /** dirty is promoted before its misses outnumber its entries, and copying
        costs no more than the misses and promotions that made it necessary. */
    ghost predicate CostOk()
      reads this, meter
    {
      && (dirty.Some? ==> misses < |Dirty()|)
      && (dirty.None? ==> misses == 0)
      && meter.looks + misses + (if dirty.None? then |read.m| else 0) <= missed + ranged
    }

    constructor ()
      ensures Valid() && CostOk() && fresh(Repr) && fresh(meter) && Contents == map[]
      ensures missed == ranged == 0 && Repr == {}
    {
      read := ReadOnly(map[], false);
      dirty := None;
      misses := 0;
      Contents := map[];
      Repr := {};
      missed, ranged := 0, 0;
      meter := new Meter();
    }

    // ---------------------------------------------------------------- under the lock

    /** read becomes the dirty table. */
    method Promote()
      requires Valid() && dirty.Some?
      modifies this`read, this`dirty, this`misses
      ensures Valid() && read.m == old(Dirty()) && !read.amended && dirty.None? && misses == 0 && Kept({})
    {
      read := ReadOnly(dirty.value, false);
      dirty := None;
      misses := 0;
    }

    /** A miss is recorded. */
    method Miss()
      requires Valid()
      modifies this`misses, this`missed
      ensures Valid() && misses == old(misses) + 1 && missed == old(missed) + 1 && Kept({})
    {
      misses := misses + 1;
      missed := missed + 1;
      hide Kept;
      Apart();
      KeptSame();
    }

    method MissLocked()
      requires Valid() && dirty.Some?
      requires misses <= |Dirty()| && meter.looks + misses <= missed + ranged
      modifies this`read, this`dirty, this`misses, this`missed
      ensures Valid() && CostOk() && Misses(old(Dirty())) && Kept({})
      ensures forall k :: k !in old(read).m && k !in old(Dirty()) ==> k !in read.m && k !in Dirty()
    {
      hide Valid, Owned, Kept;
      Miss();
      if misses < |dirty.value| {
        return;
      }
      Promote();
      KeptPromoted();
    }

    /** The loop of dirtyLocked: copies the live entries, and expunges the deleted ones. */
    static method CopyLive(table: map<K, Entry<K, V>>, ghost meter: Meter) returns (copy: map<K, Entry<K, V>>)
      requires forall k :: k in table ==> table[k].key == k
      modifies meter, set k | k in table :: table[k]
      ensures forall k :: k in table ==> table[k].p == if old(table[k].p).To? then old(table[k].p) else Expunged
      ensures copy.Keys <= table.Keys && forall k :: k in table ==> (k in copy <==> old(table[k].p).To?)
      ensures forall k :: k in copy ==> copy[k] == table[k]
      ensures meter.looks == old(meter.looks) + |table|
    {
      var todo := table.Keys;
      copy := map[];
      while todo != {}
        invariant todo <= table.Keys
        invariant forall k :: k in table && k in todo ==> table[k].p == old(table[k].p)
        invariant forall k :: k in table && k !in todo ==>
          table[k].p == if old(table[k].p).To? then old(table[k].p) else Expunged
        invariant copy.Keys <= table.Keys - todo
        invariant forall k :: k in table && k !in todo ==> (k in copy <==> old(table[k].p).To?)
        invariant forall k :: k in copy ==> copy[k] == table[k]
        invariant meter.looks + |todo| == old(meter.looks) + |table|
        decreases todo
      {
        var k :| k in todo;
        var isExpunged := table[k].TryExpungeLocked(meter);
        if !isExpunged {
          copy := copy[k := table[k]];
        }
        todo := todo - {k};
      }
    }

    /** Makes dirty out of read's live entries, expunges the deleted ones, and marks
        read as amended, as every caller does next. */
    method DirtyLocked()
      requires Valid() && CostOk() && dirty.None?
      modifies this`dirty, this`read, meter, Repr
      ensures Valid() && dirty.Some? && read.m == old(read.m) && Dirty().Keys <= read.m.Keys
      ensures meter.looks == old(meter.looks) + |read.m|
      ensures Kept({})
    {
      hide DirtyOk, Covers, NoneExpunged, Represents;
      var copy := CopyLive(read.m, meter);
      dirty := Some(copy);
      read := ReadOnly(read.m, true);
      Copied();
    }

    lemma NotInDirty(k: K)
      requires Valid() && k in read.m && read.m[k].p.Expunged?
      ensures k !in Dirty()
    {
    }

    static lemma Grows(table: map<K, Entry<K, V>>, k: K, e: Entry<K, V>)
      requires k !in table
      ensures |table[k := e]| == |table| + 1
    {
      assert table[k := e].Keys == table.Keys + {k};
    }

    /** An expunged entry of read loses its mark and is put into dirty. */
    method Unexpunge(k: K)
      requires Valid() && CostOk() && k in read.m
      modifies this`dirty, Repr
      ensures Valid() && CostOk() && !read.m[k].p.Expunged? && Kept({})
      ensures read.m[k].p == if old(read.m[k].p).Expunged? then Nil else old(read.m[k].p)
    {
      hide DirtyOk, Covers, Represents;
      var e := read.m[k];
      if e.p.Expunged? {
        assert k !in dirty.value by { NotInDirty(k); }
        e.p := Nil;
        Grows(dirty.value, k, e);
        dirty := Some(dirty.value[k := e]);
        Unexpunged(k);
      }
    }

    /** `m.dirty[key] = newEntry(value)` for a key that neither table has. */
    method InsertNew(k: K, value: V)
      requires Valid() && dirty.Some? && k !in read.m && k !in Dirty()
      requires misses <= |Dirty()| && meter.looks + misses <= missed + ranged
      modifies this`dirty, this`Contents, this`Repr
      ensures Valid() && CostOk() && Contents == old(Contents)[k := value]
      ensures fresh(Repr - old(Repr)) && |Repr| == |old(Repr)| + 1 && Kept({})
    {
      hide DirtyOk, Covers, NoneExpunged, Represents;
      var e := new Entry(k, value);
      Repr := Repr + {e};
      Grows(dirty.value, k, e);
      dirty := Some(dirty.value[k := e]);
      Contents := Contents[k := value];
      Inserted(k, e);
    }

    // ---------------------------------------------------------------- the operations

    lemma MayMiss()
      requires CostOk() && dirty.Some?
      ensures misses <= |Dirty()| && meter.looks + misses <= missed + ranged
    {
    }

    lemma LookupFinds(k: K)
      requires Valid()
      ensures read.amended <==> dirty.Some?
      ensures Get(Contents, k) == if k in read.m || k in Dirty() then ValueOf(Found(k).p) else None
      ensures k in read.m || k in Dirty() ==> Found(k) in Repr && Found(k).key == k
    {
    }

    /** The entry of a lookup that records a miss if it has to look in dirty. */
    method Find(k: K) returns (e: Option<Entry<K, V>>)
      requires Valid() && CostOk()
      modifies this`read, this`dirty, this`misses, this`missed
      ensures Valid() && CostOk() && Looks(k, old(Dirty())) && Kept({})
      ensures Get(Contents, k) == if e.Some? then ValueOf(e.value.p) else None
    {
      LookupFinds(k);
      e := if k in read.m then Some(read.m[k]) else None;
      if e.None? && read.amended {
        if k in dirty.value {
          e := Some(dirty.value[k]);
        }
        assert Get(Contents, k) == if e.Some? then ValueOf(e.value.p) else None;
        MayMiss();
        hide Valid, CostOk, Found, Get;
        MissLocked();
      }
    }

    method Load(k: K) returns (r: Option<V>)
      requires Valid() && CostOk()
      modifies this`read, this`dirty, this`misses, this`missed
      ensures Valid() && CostOk() && Looks(k, old(Dirty())) && missed <= old(missed) + 1 && Kept({})
      ensures r == Get(Contents, k)
    {
      hide Valid, CostOk;
      var e := Find(k);
      if e.None? {
        return None;
      }
      r := e.value.Load();
    }

    /** Stores through the entry that a lookup of k finds. */
    method SetEntry(k: K, e: Entry<K, V>, value: V)
      requires Valid() && !e.p.Expunged? && (k in read.m || k in Dirty()) && e == Found(k)
      modifies this`Contents, e
      ensures Valid() && Contents == old(Contents)[k := value] && e.p == To(value) && Kept({})
    {
      e.p := To(value);
      Contents := Contents[k := value];
      Written(k);
    }

    /** The path without the lock: an entry of read that is not expunged. */
    method StoreFast(k: K, value: V) returns (ok: bool)
      requires Valid() && CostOk()
      modifies this`Contents, Repr
      ensures Valid() && CostOk() && Kept({})
      ensures Contents == if ok then old(Contents)[k := value] else old(Contents)
    {
      if k !in read.m || read.m[k].p.Expunged? {
        return false;
      }
      SetEntry(k, read.m[k], value);
      return true;
    }

    /** The first value of a key that neither table has. */
    method StoreNew(k: K, value: V)
      requires Valid() && CostOk() && k !in read.m && k !in Dirty()
      modifies this`read, this`dirty, this`Contents, this`Repr, meter, Repr
      ensures Valid() && CostOk() && fresh(Repr - old(Repr)) && meter.looks >= old(meter.looks) && Kept({})
      ensures |Repr| <= |old(Repr)| + 1
      ensures Contents == old(Contents)[k := value]
    {
      if !read.amended {
        DirtyLocked();
      }
      InsertNew(k, value);
    }

    method StoreRead(k: K, value: V)
      requires Valid() && CostOk() && k in read.m
      modifies this`dirty, this`Contents, Repr
      ensures Valid() && CostOk() && Contents == old(Contents)[k := value] && Kept({})
    {
      hide DirtyOk, Covers, NoneExpunged, Represents;
      Unexpunge(k);
      SetEntry(k, read.m[k], value);
    }

    lemma DirtyOnly(k: K)
      requires Valid() && CostOk() && k !in read.m && k in Dirty()
      ensures Dirty()[k] in Repr && Dirty()[k].key == k && Dirty()[k].p.To?
      ensures Get(Contents, k) == ValueOf(Dirty()[k].p) && misses < |Dirty()|
    {
    }

    method StoreDirty(k: K, value: V)
      requires Valid() && CostOk() && k !in read.m && k in Dirty()
      modifies this`Contents, Repr
      ensures Valid() && CostOk() && Contents == old(Contents)[k := value] && Kept({})
    {
      DirtyOnly(k);
      hide Valid, CostOk, Kept;
      SetEntry(k, dirty.value[k], value);
    }

    /** The locked store to an entry that one of the tables has. */
    method StoreLocked(k: K, value: V)
      requires Valid() && CostOk() && (k in read.m || k in Dirty())
      modifies this`dirty, this`Contents, Repr
      ensures Valid() && CostOk() && Contents == old(Contents)[k := value] && Kept({})
    {
      LookupFinds(k);
      hide Valid, CostOk, Kept;
      if k in read.m {
        StoreRead(k, value);
      } else {
        StoreDirty(k, value);
      }
    }

    method Store(k: K, value: V)
      requires Valid() && CostOk()
      modifies this`read, this`dirty, this`Contents, this`Repr, meter, Repr
      ensures Valid() && CostOk() && fresh(Repr - old(Repr)) && meter.looks >= old(meter.looks) && Kept({})
      ensures |Repr| <= |old(Repr)| + 1
      ensures Contents == old(Contents)[k := value]
    {
      hide DirtyOk, Covers, NoneExpunged, Represents;
      var stored := StoreFast(k, value);
      if !stored {
        if k in read.m || (dirty.Some? && k in dirty.value) {
          StoreLocked(k, value);
        } else {
          StoreNew(k, value);
        }
      }
    }

    /** Loads or stores through the entry that a lookup of k finds. */
    method TryLoadOrStore(k: K, e: Entry<K, V>, fn: Maker<V>) returns (actual: V, loaded: bool)
      requires Valid() && !e.p.Expunged? && (k in read.m || k in Dirty()) && e == Found(k)
      modifies this`Contents, e, fn
      ensures Valid() && Kept({})
      ensures loaded <==> k in old(Contents)
      ensures actual == if loaded then old(Contents)[k] else fn.make(old(fn.calls))
      ensures Contents == if loaded then old(Contents) else old(Contents)[k := actual]
      ensures fn.calls == old(fn.calls) + if loaded then 0 else 1
    {
      LookupFinds(k);
      if e.p.To? {
        return e.p.value, true;
      }
      hide DirtyOk, Covers, NoneExpunged, Represents;
      var i := fn.Call();
      SetEntry(k, e, i);
      return i, false;
    }

    /** The path through an entry of read, which may have to be unexpunged first. */
    method LoadOrStoreRead(k: K, fn: Maker<V>) returns (actual: V, loaded: bool)
      requires Valid() && CostOk() && k in read.m
      modifies this`dirty, this`Contents, Repr, fn
      ensures Valid() && CostOk() && Kept({})
      ensures loaded <==> k in old(Contents)
      ensures actual == if loaded then old(Contents)[k] else fn.make(old(fn.calls))
      ensures Contents == if loaded then old(Contents) else old(Contents)[k := actual]
      ensures fn.calls == old(fn.calls) + if loaded then 0 else 1
    {
      hide Valid;
      LookupFinds(k);
      if read.m[k].p.Expunged? {
        Unexpunge(k);
      }
      actual, loaded := TryLoadOrStore(k, read.m[k], fn);
    }

    /** The locked path through an entry that only dirty has. */
    method LoadOrStoreDirty(k: K, fn: Maker<V>) returns (actual: V, loaded: bool)
      requires Valid() && CostOk() && k !in read.m && k in Dirty()
      modifies this`read, this`dirty, this`misses, this`missed, this`Contents, Repr, fn
      ensures Valid() && CostOk() && Misses(old(Dirty())) && Kept({})
      ensures loaded <==> k in old(Contents)
      ensures actual == if loaded then old(Contents)[k] else fn.make(old(fn.calls))
      ensures Contents == if loaded then old(Contents) else old(Contents)[k := actual]
      ensures fn.calls == old(fn.calls) + if loaded then 0 else 1
    {
      assert !dirty.value[k].p.Expunged?;
      hide DirtyOk, Covers, NoneExpunged, Represents;
      actual, loaded := TryLoadOrStore(k, dirty.value[k], fn);
      MissLocked();
    }

    /** The locked path for a key that neither table has. */
    method LoadOrStoreNew(k: K, fn: Maker<V>) returns (actual: V, loaded: bool)
      requires Valid() && CostOk() && k !in read.m && k !in Dirty()
      modifies this`read, this`dirty, this`Contents, this`Repr, meter, Repr, fn
      ensures Valid() && CostOk() && fresh(Repr - old(Repr)) && meter.looks >= old(meter.looks) && Kept({})
      ensures |Repr| <= |old(Repr)| + 1
      ensures !loaded && actual == fn.make(old(fn.calls)) && Contents == old(Contents)[k := actual]
      ensures fn.calls == old(fn.calls) + 1
    {
      hide DirtyOk, Covers, NoneExpunged, Represents;
      if !read.amended {
        DirtyLocked();
      }
      actual := fn.Call();
      loaded := false;
      InsertNew(k, actual);
    }

    /** fn is called exactly once if the key is absent, and never otherwise. */
    method LoadOrStore(k: K, fn: Maker<V>) returns (actual: V, loaded: bool)
      requires Valid() && CostOk()
      modifies this`read, this`dirty, this`misses, this`missed, this`Contents, this`Repr, meter, Repr, fn
      ensures Valid() && CostOk() && fresh(Repr - old(Repr)) && Kept({})
      ensures missed <= old(missed) + 1 && meter.looks >= old(meter.looks) && |Repr| <= |old(Repr)| + 1
      ensures if k !in old(read.m) && k in old(Dirty()) then Misses(old(Dirty())) else missed == old(missed)
      ensures loaded <==> k in old(Contents)
      ensures actual == if loaded then old(Contents)[k] else fn.make(old(fn.calls))
      ensures Contents == if loaded then old(Contents) else old(Contents)[k := actual]
      ensures fn.calls == old(fn.calls) + if loaded then 0 else 1
    {
      LookupFinds(k);
      hide Valid, CostOk, Misses;
      if k in read.m {
        actual, loaded := LoadOrStoreRead(k, fn);
      } else if dirty.Some? && k in dirty.value {
        actual, loaded := LoadOrStoreDirty(k, fn);
      } else {
        actual, loaded := LoadOrStoreNew(k, fn);
      }
    }

    /** Deletes through an entry of read. */
    method DeleteEntry(k: K, e: Entry<K, V>) returns (r: Option<V>)
      requires Valid() && k in read.m && e == read.m[k]
      modifies this`Contents, e
      ensures Valid() && Kept({k}) && r == Get(old(Contents), k) && Contents == old(Contents) - {k}
    {
      assert Get(Contents, k) == ValueOf(e.p);
      if !e.p.To? {
        return None;
      }
      r := Some(e.p.value);
      e.p := Nil;
      Contents := Contents - {k};
      Written(k);
    }

    /** Deletes a key that read has, without the lock. */
    method DeleteRead(k: K) returns (r: Option<V>)
      requires Valid() && CostOk() && k in read.m
      modifies this`Contents, Repr
      ensures Valid() && CostOk() && Kept({k}) && r == Get(old(Contents), k) && Contents == old(Contents) - {k}
    {
      hide DirtyOk, Covers, NoneExpunged, Represents;
      r := DeleteEntry(k, read.m[k]);
    }

    static lemma Shrinks(table: map<K, Entry<K, V>>, k: K)
      requires k in table
      ensures |table - {k}| == |table| - 1
    {
      assert (table - {k}).Keys == table.Keys - {k};
    }

    method Unlink(k: K) returns (e: Entry<K, V>)
      requires Valid() && CostOk() && k !in read.m && k in Dirty()
      modifies this`dirty, this`Contents
      ensures Valid() && dirty.Some? && Dirty() == old(Dirty()) - {k} && Kept({})
      ensures misses <= |Dirty()| && meter.looks + misses <= missed + ranged
      ensures e in Repr && e.key == k && e.p.To?
      ensures Get(old(Contents), k) == ValueOf(e.p) && Contents == old(Contents) - {k}
    {
      hide Valid, CostOk, Kept, Get;
      DirtyOnly(k);
      MayMiss();
      Shrinks(dirty.value, k);
      e := dirty.value[k];
      dirty := Some(dirty.value - {k});
      Contents := Contents - {k};
      Removed(k);
      KeptSame();
    }

    lemma Unlinked(k: K, e: Entry<K, V>)
      requires Valid() && k !in read.m && k !in Dirty() && e.key == k
      ensures (forall j :: j in read.m ==> read.m[j] != e) && (forall j :: j in Dirty() ==> Dirty()[j] != e)
    {
    }

    /** The locked half of that: dirty loses the entry, which keeps its value. */
    method TakeOut(k: K) returns (e: Entry<K, V>)
      requires Valid() && CostOk() && k !in read.m && k in Dirty()
      modifies this`read, this`dirty, this`misses, this`missed, this`Contents
      ensures Valid() && CostOk() && Misses(old(Dirty()) - {k}) && Kept({}) && e.key == k
      ensures e in Repr && e.p.To? && Get(old(Contents), k) == ValueOf(e.p) && Contents == old(Contents) - {k}
      ensures (forall j :: j in read.m ==> read.m[j] != e) && (forall j :: j in Dirty() ==> Dirty()[j] != e)
    {
      hide Valid, CostOk;
      e := Unlink(k);
      MissLocked();
      Unlinked(k, e);
    }

    /** The entry leaves dirty under the lock, and loses its value outside it. */
    method DeleteUnread(k: K) returns (r: Option<V>)
      requires Valid() && CostOk() && k !in read.m && k in Dirty()
      modifies this`read, this`dirty, this`misses, this`missed, this`Contents, Repr
      ensures Valid() && CostOk() && Misses(old(Dirty()) - {k}) && Kept({k})
      ensures r == Get(old(Contents), k) && Contents == old(Contents) - {k}
    {
      hide DirtyOk, Covers, NoneExpunged, Represents;
      var e := TakeOut(k);
      label unlinked:
      r := e.Delete();
      Apart@unlinked();
    }

    lemma AmendedHasDirty()
      requires Valid()
      ensures read.amended <==> dirty.Some?
    {
    }

    lemma AbsentIs(k: K)
      requires Valid() && k !in read.m && dirty.Some? && k !in dirty.value
      ensures Get(Contents, k) == None && Contents - {k} == Contents && Dirty() - {k} == Dirty()
    {
      hide DirtyOk, Covers, NoneExpunged, Owned;
    }

    twostate lemma KeptLess(k: K)
      requires Kept({})
      ensures Kept({k})
    {
    }

    /** The lookup of a key that neither table has is a miss too. */
    method DeleteAbsent(k: K)
      requires Valid() && CostOk() && k !in read.m && dirty.Some? && k !in dirty.value
      modifies this`read, this`dirty, this`misses, this`missed
      ensures Valid() && CostOk() && Misses(old(Dirty()) - {k}) && Kept({k})
      ensures Get(old(Contents), k) == None && Contents == old(Contents) - {k}
    {
      hide *;
      AbsentIs(k);
      MayMiss();
      MissLocked();
      KeptLess(k);
    }

    /** Deletes a key that read does not have. */
    method DeleteDirty(k: K) returns (r: Option<V>)
      requires Valid() && CostOk() && k !in read.m && read.amended
      modifies this`read, this`dirty, this`misses, this`missed, this`Contents, Repr
      ensures Valid() && CostOk() && Misses(old(Dirty()) - {k}) && Kept({k})
      ensures r == Get(old(Contents), k) && Contents == old(Contents) - {k}
    {
      AmendedHasDirty();
      hide *;
      if k in dirty.value {
        r := DeleteUnread(k);
      } else {
        DeleteAbsent(k);
        r := None;
      }
    }

    method LoadAndDelete(k: K) returns (r: Option<V>)
      requires Valid() && CostOk()
      modifies this`read, this`dirty, this`misses, this`missed, this`Contents, Repr
      ensures Valid() && CostOk() && Looks(k, old(Dirty()) - {k}) && missed <= old(missed) + 1 && Kept({k})
      ensures r == Get(old(Contents), k) && Contents == old(Contents) - {k}
    {
      LookupFinds(k);
      hide Valid, CostOk;
      if k in read.m {
        r := DeleteRead(k);
      } else if read.amended {
        r := DeleteDirty(k);
      } else {
        assert Contents - {k} == Contents;
        r := None;
      }
    }

    method Delete(k: K)
      requires Valid() && CostOk()
      modifies this`read, this`dirty, this`misses, this`missed, this`Contents, Repr
      ensures Valid() && CostOk() && Looks(k, old(Dirty()) - {k}) && Kept({k}) && Contents == old(Contents) - {k}
    {
      var _ := LoadAndDelete(k);
    }

    // ---------------------------------------------------------------- Range

    method Perform(op: Op<K, V>) returns (reply: Reply<V>)
      requires Valid() && CostOk()
      modifies this, meter, Repr
      ensures Valid() && CostOk() && fresh(Repr - old(Repr)) && Kept(Deletes(op))
      ensures missed <= old(missed) + 1 && meter.looks >= old(meter.looks) && ranged == old(ranged)
      ensures |Repr| <= |old(Repr)| + 1
      ensures (Contents, reply) == Plain(old(Contents), op)
    {
      hide Valid, CostOk, Looks, Misses;
      match op {
        case LoadOp(k) =>
          var r := Load(k);
          reply := Reply(r, r.Some?);
        case StoreOp(k, v) =>
          Store(k, v);
          reply := Reply(None, false);
        case LoadOrStoreOp(k, v) =>
          var fn := new Maker(_ => v);
          var actual, loaded := LoadOrStore(k, fn);
          reply := Reply(Some(actual), loaded);
        case DeleteOp(k) =>
          var r := LoadAndDelete(k);
          reply := Reply(r, r.Some?);
      }
    }

    /** What a callback does. */
    method PerformEach(ops: seq<Op<K, V>>)
      requires Valid() && CostOk()
      modifies this, meter, Repr
      ensures Valid() && CostOk() && fresh(Repr - old(Repr)) && Kept(DeletedBy(ops))
      ensures missed <= old(missed) + |ops| && meter.looks >= old(meter.looks) && ranged == old(ranged)
      ensures |Repr| <= |old(Repr)| + |ops|
      ensures Contents == PlainEach(old(Contents), ops)
    {
      hide Valid, CostOk;
      for i := 0 to |ops|
        invariant Valid() && CostOk() && fresh(Repr - old(Repr)) && Kept(DeletedBy(ops[..i]))
        invariant missed <= old(missed) + i && meter.looks >= old(meter.looks) && ranged == old(ranged)
        invariant |Repr| <= |old(Repr)| + i
        invariant Contents == PlainEach(old(Contents), ops[..i])
      {
        assert ops[..i + 1][..i] == ops[..i];
        assert DeletedBy(ops[..i + 1]) == DeletedBy(ops[..i]) + Deletes(ops[i]);
        var _ := Perform(ops[i]);
      }
      assert ops[..|ops|] == ops;
    }

    lemma Promoted()
      requires dirty.None? && misses == 0 && meter.looks + |read.m| <= missed + ranged
      ensures CostOk()
    {
    }

    /** The entries of dirty are counted. */
    method Bill()
      requires Valid() && dirty.Some? && meter.looks + misses <= missed + ranged
      modifies this`ranged
      ensures Valid() && ranged == old(ranged) + |Dirty()| && meter.looks + |Dirty()| <= missed + ranged
    {
      ranged := ranged + |dirty.value|;
      Apart();
    }

    lemma LookupFindsAll()
      requires Valid()
      ensures (read.amended <==> dirty.Some?) && Contents.Keys <= read.m.Keys + Dirty().Keys
    {
    }

    /** read is the only table, and has every key. */
    method PromoteForRange()
      requires Valid() && CostOk()
      modifies this`read, this`dirty, this`misses, this`ranged
      ensures Valid() && CostOk() && !read.amended && Contents.Keys <= read.m.Keys
      ensures ranged == old(ranged) + if old(read.amended) then |old(Dirty())| else 0
    {
      hide Valid, Kept, CostOk;
      LookupFindsAll();
      if read.amended {
        MayMiss();
        Bill();
        Promote();
        LookupFindsAll();
        Promoted();
      }
    }

    /** The entries of the table that a Range goes through, those of these keys still with their values. */
    ghost predicate Going(table: map<K, Entry<K, V>>, live: set<K>)
      reads this, Repr
    {
      && (forall k :: k in table ==> table[k] in Repr && table[k].key == k && Hold(table[k]))
      && (forall k :: k in live ==> k in table && table[k].p.To?)
    }

    /** A table that this map owns has no more keys than the map has made entries. */
    static lemma TableMade(table: map<K, Entry<K, V>>, made: set<Entry<K, V>>)
      requires forall k :: k in table ==> table[k] in made && table[k].key == k
      ensures |table| <= |made|
      decreases |table|
    {
      if table != map[] {
        var k :| k in table.Keys;
        Shrinks(table, k);
        TableMade(table - {k}, made - {table[k]});
      }
    }

    lemma DirtyMade()
      requires Valid()
      ensures |Dirty()| <= |Repr|
    {
      TableMade(Dirty(), Repr);
    }

    /** What the callback of a Range does leaves the table good to go on with. */
    method CallBack(ops: seq<Op<K, V>>, ghost table: map<K, Entry<K, V>>, ghost live: set<K>)
      requires Valid() && CostOk() && Going(table, live)
      modifies this, meter, Repr
      ensures Valid() && CostOk() && fresh(Repr - old(Repr)) && Going(table, live - DeletedBy(ops))
      ensures missed <= old(missed) + |ops| && meter.looks >= old(meter.looks) && ranged == old(ranged)
      ensures |Repr| <= |old(Repr)| + |ops|
      ensures Contents == PlainEach(old(Contents), ops)
    {
      hide Valid, CostOk;
      PerformEach(ops);
    }

    lemma Starts()
      requires Valid() && Contents.Keys <= read.m.Keys
      ensures Going(read.m, Contents.Keys)
    {
    }

    /** An entry of the table that has a value has the one of its key. */
    lemma ReadsNow(table: map<K, Entry<K, V>>, live: set<K>, k: K)
      requires Valid() && Going(table, live) && k in table
      ensures table[k].p.To? ==> Get(Contents, k) == Some(table[k].p.value)
      ensures table[k].p.To? || k !in live
    {
    }

    /** One turn of the loop: the callback is given the mapping of the key, if the entry has one. */
    method VisitKey(table: map<K, Entry<K, V>>, k: K, act: (K, V) -> seq<Op<K, V>>, ghost live: set<K>)
      returns (v: Option<V>)
      requires Valid() && CostOk() && Going(table, live) && k in table
      modifies this, meter, Repr
      ensures Valid() && CostOk() && fresh(Repr - old(Repr)) && meter.looks >= old(meter.looks) && ranged == old(ranged)
      ensures v == None ==> k !in live && Contents == old(Contents) && missed == old(missed) && Going(table, live)
      ensures v == None ==> Repr == old(Repr)
      ensures v.Some? ==>
        && Get(old(Contents), k) == v && Contents == PlainEach(old(Contents), act(k, v.value))
        && |Repr| <= |old(Repr)| + |act(k, v.value)|
        && missed <= old(missed) + |act(k, v.value)| && Going(table, live - DeletedBy(act(k, v.value)))
    {
      hide Valid, CostOk, Going, PlainEach, DeletedBy;
      ReadsNow(table, live, k);
      v := table[k].Load();
      if v.Some? {
        CallBack(act(k, v.value), table, live);
      }
    }

    static lemma StillLive(all: set<K>, gone: set<K>, more: set<K>)
      ensures all - gone - more == all - (gone + more)
    {
    }

    /** Range, with a callback that does act and asks to go on while go says so. */
    method Range(act: (K, V) -> seq<Op<K, V>>, go: (K, V) -> bool) returns (visited: seq<(K, V)>)
      requires Valid() && CostOk()
      modifies this, meter, Repr
      ensures Valid() && CostOk() && fresh(Repr - old(Repr)) && meter.looks >= old(meter.looks)
      ensures missed <= old(missed) + Calls(visited, act) && |Repr| <= |old(Repr)| + Calls(visited, act)
      ensures ranged == old(ranged) + if old(read.amended) then |old(Dirty())| else 0
      ensures Ranged(old(Contents), Contents, visited, act, go)
    {
      hide Valid, CostOk, Visiting, Stopping, Ranged, Going, Kept, Gone, Calls, DeletedBy, PlainEach, Keys;
      PromoteForRange();
      var table := read.m;
      var todo := table.Keys;
      visited := [];
      ghost var before, made, had, owing := Contents, |Repr|, missed, ranged;
      Starts();
      VisitStart(before, todo, act, go);
      NoVisits(act);
      assert before.Keys - {} == before.Keys;
      while todo != {}
        invariant Valid() && CostOk() && fresh(Repr - old(Repr)) && meter.looks >= old(meter.looks)
        invariant todo <= table.Keys
        invariant missed <= had + Calls(visited, act) && |Repr| <= made + Calls(visited, act) && ranged == owing
        invariant Visiting(before, Contents, todo, visited, act, go)
        invariant Going(table, before.Keys - Gone(visited, act))
        decreases todo
      {
        var k :| k in todo;
        ghost var now := Contents;
        var v := VisitKey(table, k, act, before.Keys - Gone(visited, act));
        if v.None? {
          VisitNone(before, now, todo, visited, act, go, k);
        } else {
          VisitOne(before, now, todo, visited, act, go, k, v.value);
          VisitedMore(visited, act, k, v.value);
          StillLive(before.Keys, Gone(visited, act), DeletedBy(act(k, v.value)));
          visited := visited + [(k, v.value)];
          if !go(k, v.value) {
            StoppedRanges(before, Contents, visited, act, go);
            return;
          }
        }
        todo := todo - {k};
      }
      DoneRanges(before, Contents, visited, act, go);
    }
  }

  // ---------------------------------------------------------------- runs

  datatype Call<!K, !V> = Do(op: Op<K, V>) | RangeOver(act: (K, V) -> seq<Op<K, V>>, go: (K, V) -> bool)

  datatype Answer<K, V> = Told(reply: Reply<V>) | Visits(visited: seq<(K, V)>)

  /** A plain map may go from m to m' on the call, and give the answer. */
  ghost predicate MayAnswer<K, V>(m: map<K, V>, call: Call<K, V>, m': map<K, V>, answer: Answer<K, V>) {
    match call
    case Do(op) => answer.Told? && (m', answer.reply) == Plain(m, op)
    case RangeOver(act, go) => answer.Visits? && Ranged(m, m', answer.visited, act, go)
  }

  /** The first calls are answered as a plain map answers them, which goes through these states. */
  ghost predicate Answered<K, V>(calls: seq<Call<K, V>>, states: seq<map<K, V>>, answers: seq<Answer<K, V>>) {
    && |answers| <= |calls| && |states| == |answers| + 1 && states[0] == map[]
    && forall i :: 0 <= i < |answers| ==> MayAnswer(states[i], calls[i], states[i + 1], answers[i])
  }

  lemma AnsweredNone<K, V>(calls: seq<Call<K, V>>)
    ensures Answered(calls, [map[]], [])
  {
  }

  lemma AnsweredMore<K, V>(calls: seq<Call<K, V>>, states: seq<map<K, V>>, answers: seq<Answer<K, V>>,
                           next: map<K, V>, answer: Answer<K, V>)
    requires Answered(calls, states, answers) && |answers| < |calls|
    requires MayAnswer(states[|answers|], calls[|answers|], next, answer)
    ensures Answered(calls, states + [next], answers + [answer])
  {
    hide MayAnswer;
  }

  /** The operations of a call, those of its callbacks included. */
  function Cost<K, V>(call: Call<K, V>, answer: Answer<K, V>): nat {
    if call.Do? then 1 else if answer.Visits? then Calls(answer.visited, call.act) else 0
  }

  function Costs<K, V>(calls: seq<Call<K, V>>, answers: seq<Answer<K, V>>): nat
    requires |calls| == |answers|
  {
    if calls == [] then 0
    else
      var n := |calls| - 1;
      Costs(calls[..n], answers[..n]) + Cost(calls[n], answers[n])
  }

  /** How many of the calls are calls of Range. */
  function Rangings<K, V>(calls: seq<Call<K, V>>): nat {
    if calls == [] then 0
    else
      var n := |calls| - 1;
      Rangings(calls[..n]) + if calls[n].RangeOver? then 1 else 0
  }

  /** The most that they may promote: each Range no more keys than there were operations. */
  function MostRanged<K, V>(calls: seq<Call<K, V>>, answers: seq<Answer<K, V>>): nat
    requires |calls| == |answers|
  {
    Rangings(calls) * Costs(calls, answers)
  }

  method Make<K(==), V>(m: Map<K, V>, call: Call<K, V>) returns (answer: Answer<K, V>)
    requires m.Valid() && m.CostOk()
    modifies m, m.meter, m.Repr
    ensures m.Valid() && m.CostOk() && fresh(m.Repr - old(m.Repr)) && m.meter.looks >= old(m.meter.looks)
    ensures m.missed <= old(m.missed) + Cost(call, answer) && |m.Repr| <= |old(m.Repr)| + Cost(call, answer)
    ensures m.ranged == old(m.ranged) + if call.RangeOver? && old(m.read.amended) then |old(m.Dirty())| else 0
    ensures m.ranged <= old(m.ranged) + if call.RangeOver? then |old(m.Repr)| else 0
    ensures MayAnswer(old(m.Contents), call, m.Contents, answer)
  {
    hide Map.Valid, Map.CostOk, Ranged;
    m.DirtyMade();
    match call {
      case Do(op) =>
        var reply := m.Perform(op);
        answer := Told(reply);
      case RangeOver(act, go) =>
        var visited := m.Range(act, go);
        answer := Visits(visited);
    }
  }

  lemma Spent<K, V>(m: Map<K, V>)
    requires m.CostOk()
    ensures m.meter.looks <= m.missed + m.ranged
  {
  }

  lemma Product(ranges: nat, ranges': nat, costs: nat, costs': nat)
    requires costs <= costs' && ranges' <= ranges + 1
    ensures ranges' == ranges + 1 ==> ranges * costs + costs <= ranges' * costs'
    ensures ranges' == ranges ==> ranges * costs <= ranges' * costs'
  {
    assert ranges * costs <= ranges * costs' by {
      assert ranges * (costs' - costs) >= 0;
    }
  }

  lemma NoCalls<K, V>(calls: seq<Call<K, V>>, answers: seq<Answer<K, V>>)
    requires calls == [] && answers == []
    ensures Costs(calls, answers) == 0
  {
  }

  /** One call more, and what it may add to the most that Ranges promote. */
  lemma OneMore<K, V>(calls: seq<Call<K, V>>, i: nat, answers: seq<Answer<K, V>>, answer: Answer<K, V>)
    requires i < |calls| && |answers| == i
    ensures Costs(calls[..i + 1], answers + [answer]) == Costs(calls[..i], answers) + Cost(calls[i], answer)
    ensures MostRanged(calls[..i], answers) + (if calls[i].RangeOver? then Costs(calls[..i], answers) else 0)
      <= MostRanged(calls[..i + 1], answers + [answer])
  {
    assert calls[..i + 1][..i] == calls[..i] && (answers + [answer])[..i] == answers;
    Product(Rangings(calls[..i]), Rangings(calls[..i + 1]),
            Costs(calls[..i], answers), Costs(calls[..i + 1], answers + [answer]));
  }

  lemma {:induction false} OnlyOperations<K, V>(calls: seq<Call<K, V>>, answers: seq<Answer<K, V>>)
    requires |calls| == |answers| && forall i :: 0 <= i < |calls| ==> calls[i].Do?
    ensures Rangings(calls) == 0 && Costs(calls, answers) == |calls| && MostRanged(calls, answers) == 0
  {
    if calls != [] {
      OnlyOperations(calls[..|calls| - 1], answers[..|calls| - 1]);
    }
  }

  /** Any sequence of calls on a new map is answered as a plain map answers it, and leaves the map with what
      the plain map then has. In all of it dirtyLocked looked at no more entries than there were operations,
      and entries that Range promoted; and each Range promoted no more than there were operations. */
  method MakeAll<K(==), V>(calls: seq<Call<K, V>>)
    returns (m: Map<K, V>, answers: seq<Answer<K, V>>, ghost states: seq<map<K, V>>)
    ensures fresh(m) && m.Valid() && m.CostOk()
    ensures |answers| == |calls| && Answered(calls, states, answers) && states[|calls|] == m.Contents
    ensures m.missed <= Costs(calls, answers) && m.meter.looks <= Costs(calls, answers) + m.ranged
    ensures m.ranged <= MostRanged(calls, answers)
    ensures (forall i :: 0 <= i < |calls| ==> calls[i].Do?) ==> m.ranged == 0 && m.meter.looks <= |calls|
  {
    hide *;
    m := new Map();
    answers, states := [], [map[]];
    NoCalls(calls[..0], answers);
    AnsweredNone(calls);
    for i := 0 to |calls|
      invariant m.Valid() && m.CostOk() && fresh(m) && fresh(m.Repr) && fresh(m.meter)
      invariant |answers| == i && |states| == i + 1 && states[i] == m.Contents
      invariant Answered(calls, states, answers)
      invariant m.missed <= Costs(calls[..i], answers) && |m.Repr| <= Costs(calls[..i], answers)
      invariant m.ranged <= MostRanged(calls[..i], answers)
    {
      var answer := Make(m, calls[i]);
      OneMore(calls, i, answers, answer);
      AnsweredMore(calls, states, answers, m.Contents, answer);
      answers, states := answers + [answer], states + [m.Contents];
    }
    assert calls[..|calls|] == calls;
    Spent(m);
    if forall i :: 0 <= i < |calls| ==> calls[i].Do? {
      OnlyOperations(calls, answers);
    }
  }
}
