/**
 What a thread's program point asserts survives the steps of every other thread,
 given only the guarantees of SyncMapEffects.
 */
module SyncMapRely {
  import opened Options
  import opened SyncMapMachine
  import opened SyncMapInvariant
  import opened SyncMapEffects

  lemma SeenStays(past: seq<Moment>, m: Moment, start: nat, k: Key, o: Option<Value>)
    requires SeenAt(past, start, k, o)
    ensures SeenAt(past + [m], start, k, o)
  {
    var i :| start <= i < |past| && Get(past[i].contents, k) == o;
    assert (past + [m])[i] == past[i];
  }

  lemma SeenNow(past: seq<Moment>, m: Moment, start: nat, k: Key)
    requires start <= |past|
    ensures SeenAt(past + [m], start, k, Get(m.contents, k))
  {
    assert (past + [m])[|past|] == m;
  }

  lemma SettledStays(past: seq<Moment>, m: Moment, t: Tid, op: Op, start: nat, effect: Option<nat>, answer: Answer)
    requires Settled(past, t, op, start, effect, answer)
    ensures Settled(past + [m], t, op, start, effect, answer)
  {
    var past' := past + [m];
    if effect.Some? {
      assert past'[effect.value] == past[effect.value];
    } else if op.Range? {
      forall k | k in answer.visited ensures SeenAt(past', start, k, Some(answer.visited[k])) {
        SeenStays(past, m, start, k, Some(answer.visited[k]));
      }
      forall k | answer.all && k !in answer.visited ensures SeenAt(past', start, k, None) {
        SeenStays(past, m, start, k, None);
      }
    } else {
      var i :| start <= i < |past| && Applies(op, past[i].contents, answer, past[i].contents);
      assert past'[i] == past[i];
    }
  }

  lemma HoldReadStays(sh: Shared, sh': Shared, own: Option<EntryId>, past: seq<Moment>, m: Moment,
                      start: nat, e: EntryId)
    requires HoldRead(sh, past, start, e) && EntryGuarantee(sh, sh', own, e)
    requires m.contents == Abs(sh') && start <= |past|
    ensures HoldRead(sh', past + [m], start, e)
  {
    SeenStays(past, m, start, e.key, ValueOf(Slot(sh, e)));
    SeenNow(past, m, start, e.key);
    assert Get(m.contents, e.key) == CurrentValue(sh', e.key);
    if !Linked(sh, e) {
      SeenStays(past, m, start, e.key, None);
    }
  }

  lemma SnapStays(sh: Shared, sh': Shared, own: Option<EntryId>, past: seq<Moment>, m: Moment,
                  start: nat, snap: ReadOnly)
    requires SnapOk(sh, past, start, snap) && Guarantee(sh, sh', own)
    requires m.contents == Abs(sh') && start <= |past|
    ensures SnapOk(sh', past + [m], start, snap)
  {
    assert TableOf(sh', snap.m) == TableOf(sh, snap.m);
    forall k | k in TableOf(sh, snap.m) ensures HoldRead(sh', past + [m], start, TableOf(sh, snap.m)[k]) {
      HoldReadStays(sh, sh', own, past, m, start, TableOf(sh, snap.m)[k]);
    }
    forall k | !snap.amended && k !in TableOf(sh, snap.m) ensures SeenAt(past + [m], start, k, None) {
      SeenStays(past, m, start, k, None);
    }
  }

  lemma IterStays(sh: Shared, sh': Shared, own: Option<EntryId>, past: seq<Moment>, m: Moment, start: nat,
                  table: TableId, todo: set<Key>, visited: Contents)
    requires IterOk(sh, past, start, table, todo, visited) && Guarantee(sh, sh', own)
    requires m.contents == Abs(sh') && start <= |past|
    ensures IterOk(sh', past + [m], start, table, todo, visited)
  {
    assert TableOf(sh', table) == TableOf(sh, table);
    forall k | k in TableOf(sh, table) ensures HoldRead(sh', past + [m], start, TableOf(sh, table)[k]) {
      HoldReadStays(sh, sh', own, past, m, start, TableOf(sh, table)[k]);
    }
    forall k | k in visited ensures SeenAt(past + [m], start, k, Some(visited[k])) {
      SeenStays(past, m, start, k, Some(visited[k]));
    }
    forall k | k !in todo && k !in visited ensures SeenAt(past + [m], start, k, None) {
      SeenStays(past, m, start, k, None);
    }
  }

  lemma DeleteStays(sh: Shared, sh': Shared, own: Option<EntryId>, past: seq<Moment>, m: Moment,
                    t: Tid, th: Thread, e: EntryId, mine: bool)
    requires DeleteOk(sh, past, t, th, e, mine) && Guarantee(sh, sh', own)
    requires m.contents == Abs(sh') && th.start <= |past|
    requires mine ==> own != Some(e)
    ensures DeleteOk(sh', past + [m], t, th, e, mine)
    ensures mine ==> Slot(sh', e) == Slot(sh, e)
  {
    assert EntryGuarantee(sh, sh', own, e);
    if mine {
      SettledStays(past, m, t, th.op, th.start, th.effect, Lookup(ValueOf(Slot(sh, e))));
    } else {
      HoldReadStays(sh, sh', own, past, m, th.start, e);
    }
  }

  lemma TailStays(sh: Shared, sh': Shared, own: Option<EntryId>, past: seq<Moment>, m: Moment,
                  t: Tid, th: Thread, pc: Pc)
    requires TailOk(sh, past, t, th, pc) && Guarantee(sh, sh', own)
    requires m.contents == Abs(sh') && th.start <= |past|
    requires own.Some? ==> own != Mine(pc)
    ensures TailOk(sh', past + [m], t, th, pc)
  {
    match pc
    case LoadSlot(e) => HoldReadStays(sh, sh', own, past, m, th.start, e);
    case DeleteLoad(e, mine) => DeleteStays(sh, sh', own, past, m, t, th, e, mine);
    case DeleteCas(e, _, mine) => DeleteStays(sh, sh', own, past, m, t, th, e, mine);
    case RangeIter(table, todo, visited) => IterStays(sh, sh', own, past, m, th.start, table, todo, visited);
    case Respond(answer) => SettledStays(past, m, t, th.op, th.start, th.effect, answer);
  }

  /** A thread outside the lock is undisturbed by any step of another thread. */
  lemma OutsideStays(sh: Shared, sh': Shared, own: Option<EntryId>, past: seq<Moment>, m: Moment, t: Tid, th: Thread)
    requires ThreadOk(sh, past, t, th) && !InLock(th.pc) && Guarantee(sh, sh', own)
    requires m.contents == Abs(sh') && th.start <= |past|
    requires own.Some? ==> own != Mine(th.pc)
    ensures ThreadOk(sh', past + [m], t, th)
  {
    if IsTail(th.pc) {
      TailStays(sh, sh', own, past, m, t, th, th.pc);
      return;
    }
    match th.pc
    case FastLookup(snap) => SnapStays(sh, sh', own, past, m, th.start, snap);
    case StoreLoad(e) => assert EntryGuarantee(sh, sh', own, e);
    case StoreCas(e, _) => assert EntryGuarantee(sh, sh', own, e);
    case PutLoad(e, _) => HoldReadStays(sh, sh', own, past, m, th.start, e);
    case PutCall(e, _) => HoldReadStays(sh, sh', own, past, m, th.start, e);
    case PutCas(e, _, _) => HoldReadStays(sh, sh', own, past, m, th.start, e);
    case PutReload(e, _, _) => HoldReadStays(sh, sh', own, past, m, th.start, e);
    case _ =>
  }

  /** The lock holder is undisturbed by steps taken without the lock. */
  lemma HolderStays(sh: Shared, sh': Shared, own: Option<EntryId>, past: seq<Moment>, m: Moment, t: Tid, th: Thread)
    requires ThreadOk(sh, past, t, th) && InLock(th.pc) && Guarantee(sh, sh', own) && LockGuarantee(sh, sh')
    requires m.contents == Abs(sh') && th.start <= |past|
    requires own.Some? ==> own != Mine(th.pc)
    ensures ThreadOk(sh', past + [m], t, th)
  {
    hide Guarantee, Abs;
    if IsLeaving(th.pc) {
      hide LockedOk, FastOk;
      assert own.Some? ==> own != Mine(th.pc.next);
      if th.pc.Publish? && !TailOk(sh, past, t, th, th.pc.next) {
        assert RangePublish(sh', th, th.pc.next);
      } else {
        hide TailOk;
        TailStays(sh, sh', own, past, m, t, th, th.pc.next);
      }
    } else {
      hide LeavingOk, TailOk, SeenAt;
      assert forall k :: Current(sh', k) == Current(sh, k);
    }
  }
}
