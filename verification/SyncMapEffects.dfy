/**
 The ways a step changes the shared state.  Each keeps `SharedOk` and gives every
 other thread the guarantee its own invariant needs.
 */
module SyncMapEffects {
  import opened Options
  import opened SyncMapMachine
  import opened SyncMapInvariant

  ghost predicate EntryGuarantee(sh: Shared, sh': Shared, own: Option<EntryId>, e: EntryId) {
    && e in sh'.heap
    && (FastHold(sh, e) ==> FastHold(sh', e))
    && (Linked(sh, e) ==> Linked(sh', e) || CurrentValue(sh', e.key).None?)
    && (!Linked(sh, e) ==> !Linked(sh', e))
    && (Slot(sh', e) != Slot(sh, e) ==> Linked(sh', e) || own == Some(e))
    && (own == Some(e) ==> !Linked(sh, e) && Slot(sh', e) == Nil)
  }

  /** What any step promises to the threads that do not take it.  `own` is the
      entry the stepping thread alone may clear. */
  ghost predicate Guarantee(sh: Shared, sh': Shared, own: Option<EntryId>) {
    && (forall m :: Frozen(sh, m) ==> Frozen(sh', m) && TableOf(sh', m) == TableOf(sh, m))
    && (forall e :: e in sh.heap ==> EntryGuarantee(sh, sh', own, e))
  }

  /** What a step without the lock promises to the lock holder. */
  ghost predicate LockGuarantee(sh: Shared, sh': Shared) {
    && sh'.read == sh.read && sh'.dirty == sh.dirty && sh'.tables == sh.tables && sh'.misses == sh.misses
    && (forall e :: e in sh.heap ==> e in sh'.heap && (Slot(sh', e) == Expunged <==> Slot(sh, e) == Expunged))
  }

  lemma PublishedFrame(sh: Shared, sh': Shared)
    requires Typed(sh) && PublishedOk(sh)
    requires forall m :: Frozen(sh', m) ==> Frozen(sh, m) && TableOf(sh', m) == TableOf(sh, m)
    requires forall e :: e in sh.heap && FastHold(sh, e) ==> FastHold(sh', e)
    ensures PublishedOk(sh')
  {
    forall m, k | Frozen(sh', m) && k in TableOf(sh', m) ensures FastHold(sh', TableOf(sh', m)[k]) {
      assert Frozen(sh, m) && TableTyped(sh.heap, sh.tables[m]);
      assert FastHold(sh, TableOf(sh, m)[k]);
    }
  }

  // ---------------------------------------------------------------- writes to an entry

  /** A store, a delete or an insertion through an entry of the map. */
  lemma WriteLinked(sh: Shared, phase: Phase, e: EntryId, p: Pointer)
    requires SharedOk(sh, phase)
    requires e in sh.heap && Linked(sh, e) && Slot(sh, e) != Expunged && p != Expunged
    requires p == Nil ==> InRead(sh, e)
    ensures SharedOk(SetSlot(sh, e, p), phase)
    ensures Guarantee(sh, SetSlot(sh, e, p), None) && LockGuarantee(sh, SetSlot(sh, e, p))
  {
    var sh' := SetSlot(sh, e, p);
    assert ReadTable(sh') == ReadTable(sh) && DirtyTable(sh') == DirtyTable(sh);
    PublishedFrame(sh, sh');
  }

  /** The deleter clears the entry it took out of dirty. */
  lemma ClearOwned(sh: Shared, phase: Phase, e: EntryId)
    requires SharedOk(sh, phase)
    requires e in sh.heap && !Linked(sh, e) && Slot(sh, e).To?
    ensures SharedOk(SetSlot(sh, e, Nil), phase)
    ensures Guarantee(sh, SetSlot(sh, e, Nil), Some(e)) && LockGuarantee(sh, SetSlot(sh, e, Nil))
    ensures Abs(SetSlot(sh, e, Nil)) == Abs(sh)
  {
    var sh' := SetSlot(sh, e, Nil);
    assert ReadTable(sh') == ReadTable(sh) && DirtyTable(sh') == DirtyTable(sh);
    PublishedFrame(sh, sh');
    forall k ensures CurrentValue(sh', k) == CurrentValue(sh, k) {
      if Current(sh, k).Some? {
        var c := Current(sh, k).value;
        assert c.key == k;
        assert c != e;
      }
    }
  }

  lemma SameValues(sh: Shared, sh': Shared)
    requires forall k :: CurrentValue(sh', k) == CurrentValue(sh, k)
    ensures Abs(sh') == Abs(sh)
  {
  }

  /** unexpungeLocked: the entry loses its mark and now has to be put into dirty. */
  lemma ClearExpunged(sh: Shared, e: EntryId)
    requires SharedOk(sh, Stable)
    requires e in sh.heap && InRead(sh, e) && Slot(sh, e) == Expunged
    ensures SharedOk(SetSlot(sh, e, Nil), Putting(e.key))
    ensures Guarantee(sh, SetSlot(sh, e, Nil), None)
    ensures Abs(SetSlot(sh, e, Nil)) == Abs(sh)
  {
    var sh' := SetSlot(sh, e, Nil);
    assert ReadTable(sh') == ReadTable(sh) && DirtyTable(sh') == DirtyTable(sh);
    PublishedFrame(sh, sh');
    SameValues(sh, sh');
  }

  /** tryExpungeLocked succeeds on a deleted entry while dirty is being filled. */
  lemma MarkExpunged(sh: Shared, todo: set<Key>, k: Key)
    requires SharedOk(sh, Filling(todo))
    requires k in todo && k in ReadTable(sh) && Slot(sh, ReadTable(sh)[k]) == Nil
    ensures var e := ReadTable(sh)[k];
      && SharedOk(SetSlot(sh, e, Expunged), Filling(todo - {k}))
      && Guarantee(sh, SetSlot(sh, e, Expunged), None)
      && Abs(SetSlot(sh, e, Expunged)) == Abs(sh)
  {
    var e := ReadTable(sh)[k];
    var sh' := SetSlot(sh, e, Expunged);
    assert TableTyped(sh.heap, sh.tables[sh.read.m]);
    assert ReadTable(sh') == ReadTable(sh) && DirtyTable(sh') == DirtyTable(sh);
    PublishedFrame(sh, sh');
    SameValues(sh, sh');
  }

  // ---------------------------------------------------------------- writes to the dirty table

  /** `m.dirty[k] = e` for an entry of read that is not expunged. */
  lemma PutDirty(sh: Shared, phase: Phase, k: Key, phase': Phase)
    requires SharedOk(sh, phase) && k in ReadTable(sh) && Slot(sh, ReadTable(sh)[k]) != Expunged
    requires (phase == Putting(k) && phase' == Stable)
      || (phase.Filling? && k in phase.todo && phase' == Filling(phase.todo - {k}))
    ensures var sh' := SetDirty(sh, DirtyTable(sh)[k := ReadTable(sh)[k]]);
      && SharedOk(sh', phase') && Guarantee(sh, sh', None) && Abs(sh') == Abs(sh) && sh'.dirty.Some?
  {
    var sh' := SetDirty(sh, DirtyTable(sh)[k := ReadTable(sh)[k]]);
    assert TableTyped(sh.heap, sh.tables[sh.read.m]);
    assert ReadTable(sh') == ReadTable(sh);
    PublishedFrame(sh, sh');
    SameValues(sh, sh');
  }

  /** dirtyLocked allocates the new table. */
  lemma NewDirty(sh: Shared, m: TableId)
    requires SharedOk(sh, Stable) && sh.dirty.None? && m !in sh.tables
    ensures var sh' := sh.(dirty := Some(m), tables := sh.tables[m := map[]]);
      && SharedOk(sh', Filling(ReadTable(sh).Keys)) && Guarantee(sh, sh', None) && Abs(sh') == Abs(sh)
      && DirtyTable(sh') == map[]
  {
    var sh' := sh.(dirty := Some(m), tables := sh.tables[m := map[]]);
    assert ReadTable(sh') == ReadTable(sh);
    PublishedFrame(sh, sh');
    SameValues(sh, sh');
  }

  lemma ExtendMap(m: Contents, m': Contents, k: Key, v: Value)
    requires m' - {k} == m - {k} && k in m' && m'[k] == v
    ensures m' == m[k := v]
  {
    forall j | j != k ensures (j in m' <==> j in m) && (j in m ==> m'[j] == m[j]) {
      assert j in m' <==> j in m' - {k};
      assert j in m <==> j in m - {k};
      assert j in m ==> (m' - {k})[j] == (m - {k})[j];
    }
  }

  lemma InsertDirtyParts(sh: Shared, sh': Shared, e: EntryId, box: Box)
    requires SharedOk(sh, Stable) && sh.dirty.Some?
    requires e !in sh.heap && e.key !in ReadTable(sh) && e.key !in DirtyTable(sh)
    requires sh' == SetDirty(SetSlot(sh, e, To(box)), DirtyTable(sh)[e.key := e])
    ensures Typed(sh') && DirtyOk(sh') && Covers(sh', Stable) && Flag(sh', Stable)
    ensures ReadTable(sh') == ReadTable(sh) && DirtyTable(sh') == DirtyTable(sh)[e.key := e]
    ensures forall m :: m in sh.tables && sh.dirty != Some(m) ==> TableOf(sh', m) == TableOf(sh, m)
    ensures forall f :: f in sh.heap ==> f in sh'.heap && Slot(sh', f) == Slot(sh, f)
    ensures NoneExpunged(sh')
  {
    assert ReadTable(sh') == ReadTable(sh) && DirtyTable(sh') == DirtyTable(sh)[e.key := e];
    assert TableTyped(sh.heap, ReadTable(sh)) && TableTyped(sh.heap, DirtyTable(sh));
    assert TableTyped(sh'.heap, DirtyTable(sh'));
  }

  lemma AbsAway(sh: Shared, sh': Shared, k: Key)
    requires forall j :: j != k ==> CurrentValue(sh', j) == CurrentValue(sh, j)
    ensures Abs(sh') - {k} == Abs(sh) - {k}
  {
    forall j
      ensures j in Abs(sh) <==> CurrentValue(sh, j).Some?
      ensures j in Abs(sh') <==> CurrentValue(sh', j).Some?
    {
    }
    hide CurrentValue;
  }

  lemma DirtyValues(sh: Shared, sh': Shared, k: Key)
    requires Typed(sh) && ReadTable(sh') == ReadTable(sh)
    requires forall e :: e in sh.heap ==> e in sh'.heap && Slot(sh', e) == Slot(sh, e)
    requires forall j :: j != k ==> (j in DirtyTable(sh') <==> j in DirtyTable(sh))
    requires forall j :: j != k && j in DirtyTable(sh) ==> DirtyTable(sh')[j] == DirtyTable(sh)[j]
    ensures forall j :: j != k ==> Current(sh', j) == Current(sh, j)
    ensures Abs(sh') - {k} == Abs(sh) - {k}
  {
    assert TableTyped(sh.heap, ReadTable(sh)) && TableTyped(sh.heap, DirtyTable(sh));
    forall j | j != k ensures Current(sh', j) == Current(sh, j) && CurrentValue(sh', j) == CurrentValue(sh, j) {}
    AbsAway(sh, sh', k);
    hide Abs;
  }

  /** Changing dirty at one key that read lacks disturbs no other key. */
  lemma DirtyChange(sh: Shared, sh': Shared, k: Key)
    requires Typed(sh) && PublishedOk(sh) && Typed(sh')
    requires sh'.read == sh.read && sh'.dirty == sh.dirty && sh.dirty.Some?
    requires sh.dirty != Some(sh.read.m)
    requires forall m :: m in sh.tables && sh.dirty != Some(m) ==> TableOf(sh', m) == TableOf(sh, m)
    requires sh'.tables.Keys == sh.tables.Keys
    requires forall e :: e in sh.heap ==> e in sh'.heap && Slot(sh', e) == Slot(sh, e)
    requires forall j :: j != k ==> (j in DirtyTable(sh') <==> j in DirtyTable(sh))
    requires forall j :: j != k && j in DirtyTable(sh) ==> DirtyTable(sh')[j] == DirtyTable(sh)[j]
    requires Current(sh', k).None? || (Current(sh, k).None? && Current(sh', k).value !in sh.heap)
    ensures Guarantee(sh, sh', None) && PublishedOk(sh')
    ensures Abs(sh') - {k} == Abs(sh) - {k}
  {
    hide Abs;
    assert ReadTable(sh') == ReadTable(sh);
    DirtyValues(sh, sh', k);
    PublishedFrame(sh, sh');
  }

  /** A new key, not in read, goes into dirty. */
  lemma InsertDirty(sh: Shared, e: EntryId, box: Box)
    requires SharedOk(sh, Stable) && sh.dirty.Some?
    requires e !in sh.heap && e.key !in ReadTable(sh) && e.key !in DirtyTable(sh)
    ensures var sh' := SetDirty(SetSlot(sh, e, To(box)), DirtyTable(sh)[e.key := e]);
      && SharedOk(sh', Stable) && Guarantee(sh, sh', None)
      && e.key !in Abs(sh) && Abs(sh') == Abs(sh)[e.key := box.value]
  {
    var sh' := SetDirty(SetSlot(sh, e, To(box)), DirtyTable(sh)[e.key := e]);
    InsertDirtyParts(sh, sh', e, box);
    DirtyChange(sh, sh', e.key);
    assert Current(sh', e.key) == Some(e) && CurrentValue(sh', e.key) == Some(box.value);
    assert Current(sh, e.key) == None;
    ExtendMap(Abs(sh), Abs(sh'), e.key, box.value);
  }

  lemma RemovedEntry(sh: Shared, sh': Shared, k: Key)
    requires Typed(sh) && DirtyOk(sh) && k !in ReadTable(sh) && k in DirtyTable(sh)
    requires sh' == SetDirty(sh, DirtyTable(sh) - {k})
    requires k !in ReadTable(sh') && k !in DirtyTable(sh') && Abs(sh') - {k} == Abs(sh) - {k}
    ensures var e := DirtyTable(sh)[k];
      && e in sh'.heap && e.key == k && Linked(sh, e) && !Linked(sh', e) && Slot(sh', e).To?
      && k in Abs(sh) && Some(Abs(sh)[k]) == ValueOf(Slot(sh, e)) && Abs(sh') == Abs(sh) - {k}
  {
    assert TableTyped(sh.heap, DirtyTable(sh));
    assert Current(sh', k).None? && Current(sh, k) == Some(DirtyTable(sh)[k]);
    assert Abs(sh') == Abs(sh') - {k};
  }

  lemma RemoveDirtyParts(sh: Shared, sh': Shared, k: Key)
    requires SharedOk(sh, Stable) && sh.dirty.Some? && k !in ReadTable(sh) && k in DirtyTable(sh)
    requires sh' == SetDirty(sh, DirtyTable(sh) - {k})
    ensures Typed(sh') && DirtyOk(sh') && Covers(sh', Stable) && Flag(sh', Stable)
    ensures ReadTable(sh') == ReadTable(sh) && DirtyTable(sh') == DirtyTable(sh) - {k}
    ensures forall m :: m in sh.tables && sh.dirty != Some(m) ==> TableOf(sh', m) == TableOf(sh, m)
    ensures NoneExpunged(sh')
  {
    assert ReadTable(sh') == ReadTable(sh) && DirtyTable(sh') == DirtyTable(sh) - {k};
    assert TableTyped(sh.heap, ReadTable(sh)) && TableTyped(sh.heap, DirtyTable(sh));
    assert TableTyped(sh'.heap, DirtyTable(sh'));
  }

  /** LoadAndDelete takes an entry out of dirty that read does not have. */
  lemma RemoveDirty(sh: Shared, k: Key)
    requires SharedOk(sh, Stable) && sh.dirty.Some? && k !in ReadTable(sh) && k in DirtyTable(sh)
    ensures var e := DirtyTable(sh)[k];
      var sh' := SetDirty(sh, DirtyTable(sh) - {k});
      && SharedOk(sh', Stable) && Guarantee(sh, sh', None)
      && e in sh'.heap && e.key == k && Linked(sh, e) && !Linked(sh', e) && Slot(sh', e).To?
      && k in Abs(sh) && Some(Abs(sh)[k]) == ValueOf(Slot(sh, e)) && Abs(sh') == Abs(sh) - {k}
  {
    var sh' := SetDirty(sh, DirtyTable(sh) - {k});
    RemoveDirtyParts(sh, sh', k);
    hide DirtyOk, Covers, NoneExpunged, Abs, Guarantee;
    DirtyChange(sh, sh', k);
    hide *;
    RemovedEntry(sh, sh', k);
  }

  // ---------------------------------------------------------------- writes to read

  lemma PublishedFromDirty(sh: Shared, sh': Shared)
    requires SharedOk(sh, Stable) && sh.dirty.Some?
    requires sh' == sh.(read := ReadOnly(DirtyId(sh), false))
    ensures PublishedOk(sh')
    ensures forall e :: e in sh.heap && FastHold(sh, e) ==> FastHold(sh', e)
  {
    assert ReadTable(sh') == DirtyTable(sh);
    forall m, k | Frozen(sh', m) && k in TableOf(sh', m) ensures FastHold(sh', TableOf(sh', m)[k]) {
      assert TableTyped(sh.heap, sh.tables[m]);
      if m != DirtyId(sh) {
        assert Frozen(sh, m) && FastHold(sh, TableOf(sh, m)[k]);
      }
    }
  }

  /** read becomes the dirty table.  An entry that drops out is expunged. */
  lemma PublishDirty(sh: Shared)
    requires SharedOk(sh, Stable) && sh.dirty.Some?
    ensures var sh' := sh.(read := ReadOnly(DirtyId(sh), false));
      && SharedOk(sh', Publishing) && Guarantee(sh, sh', None) && Abs(sh') == Abs(sh)
  {
    var sh' := sh.(read := ReadOnly(DirtyId(sh), false));
    assert TableTyped(sh.heap, sh.tables[sh.read.m]) && TableTyped(sh.heap, DirtyTable(sh));
    assert ReadTable(sh') == DirtyTable(sh) == DirtyTable(sh');
    PublishedFromDirty(sh, sh');
    SameValues(sh, sh');
  }

  /** dirty becomes nil once read is that table. */
  lemma RetireDirty(sh: Shared)
    requires SharedOk(sh, Publishing)
    ensures var sh' := sh.(dirty := None, misses := 0);
      && SharedOk(sh', Stable) && Guarantee(sh, sh', None) && Abs(sh') == Abs(sh)
  {
    var sh' := sh.(dirty := None, misses := 0);
    assert ReadTable(sh') == ReadTable(sh) == DirtyTable(sh);
    PublishedFrame(sh, sh');
    SameValues(sh, sh');
  }

  /** The filled dirty map is announced: read becomes amended. */
  lemma Amend(sh: Shared)
    requires SharedOk(sh, Filling({}))
    ensures var sh' := sh.(read := ReadOnly(sh.read.m, true));
      && SharedOk(sh', Stable) && Guarantee(sh, sh', None) && Abs(sh') == Abs(sh)
  {
    var sh' := sh.(read := ReadOnly(sh.read.m, true));
    assert ReadTable(sh') == ReadTable(sh) && DirtyTable(sh') == DirtyTable(sh);
    PublishedFrame(sh, sh');
    SameValues(sh, sh');
  }

  /** Steps that touch only misses or mu. */
  lemma CountersOnly(sh: Shared, phase: Phase, misses: int, mu: Option<Tid>)
    requires SharedOk(sh, phase)
    ensures var sh' := sh.(misses := misses, mu := mu);
      && SharedOk(sh', phase) && Guarantee(sh, sh', None) && Abs(sh') == Abs(sh)
  {
    var sh' := sh.(misses := misses, mu := mu);
    assert ReadTable(sh') == ReadTable(sh) && DirtyTable(sh') == DirtyTable(sh);
    PublishedFrame(sh, sh');
    SameValues(sh, sh');
  }
}
