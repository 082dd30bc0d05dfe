/**
 What every reachable state of the concurrent map satisfies: the shared state
 agrees with the phase the lock holder is in, and every thread's program point
 justifies the answer it is about to give.
 */
module SyncMapInvariant {
  import opened Options
  import opened SyncMapMachine

  // ---------------------------------------------------------------- the sequential map

  /** What an atomic map may answer to op when it moves from `before` to `after`. */
  ghost predicate Applies(op: Op, before: Contents, answer: Answer, after: Contents) {
    match op
    case Load(k) => answer == Lookup(Get(before, k)) && after == before
    case Store(k, box) => answer == Done && after == before[k := box.value]
    case LoadOrStore(k) =>
      if k in before then answer == Actual(Some(before[k]), true) && after == before
      else answer.Actual? && !answer.loaded && answer.actual.Some? && after == before[k := answer.actual.value]
    case LoadAndDelete(k) => answer == Lookup(Get(before, k)) && after == before - {k}
    case Range => false
  }

  /** At some instant from `start` on, key k was mapped as `o` says. */
  ghost predicate SeenAt(past: seq<Moment>, start: nat, k: Key, o: Option<Value>) {
    exists i :: start <= i < |past| && Get(past[i].contents, k) == o
  }

  /** A Range reports only mappings that held during the call and, unless the
      callback stopped it, misses only keys that were absent at some instant of it. */
  ghost predicate RangeAnswer(past: seq<Moment>, start: nat, visited: Contents, all: bool) {
    && (forall k :: k in visited ==> SeenAt(past, start, k, Some(visited[k])))
    && (all ==> forall k :: k !in visited ==> SeenAt(past, start, k, None))
  }

  /** The answer of a call is the one an atomic map gives at one instant of the
      call: the step recorded as its effect, or an instant it merely observed. */
  ghost predicate Settled(past: seq<Moment>, t: Tid, op: Op, start: nat, effect: Option<nat>, answer: Answer) {
    match effect
    case Some(i) => start < i < |past| && past[i].act == Some(Act(t, start, op, answer))
    case None =>
      if op.Range? then answer.Visits? && RangeAnswer(past, start, answer.visited, answer.all)
      else exists i :: start <= i < |past| && Applies(op, past[i].contents, answer, past[i].contents)
  }

  // ---------------------------------------------------------------- the shared state

  /** What the holder of mu is in the middle of. */
  datatype Phase =
    | Stable                    // nothing
    | Putting(k: Key)           // read's entry for k is unexpunged but not yet in dirty
    | Filling(todo: set<Key>)   // dirty exists, still lacks todo, and read is not amended
    | Publishing                // read already is the dirty table

  ghost predicate Linked(sh: Shared, e: EntryId) { Current(sh, e.key) == Some(e) }

  ghost predicate InRead(sh: Shared, e: EntryId) { e.key in ReadTable(sh) && ReadTable(sh)[e.key] == e }

  /** What a thread may rely on for an entry it found in some published table. */
  ghost predicate FastHold(sh: Shared, e: EntryId) { InRead(sh, e) || Slot(sh, e) == Expunged }

  /** No one writes table m any more. */
  ghost predicate Frozen(sh: Shared, m: TableId) {
    m in sh.tables && (sh.dirty == Some(m) ==> m == sh.read.m)
  }

  ghost predicate TableTyped(heap: map<EntryId, Pointer>, table: Table) {
    forall k :: k in table ==> table[k] in heap && table[k].key == k
  }

  ghost predicate Typed(sh: Shared) {
    && NIL_TABLE in sh.tables
    && sh.read.m in sh.tables
    && (sh.dirty.Some? ==> sh.dirty.value in sh.tables && sh.dirty.value != NIL_TABLE)
    && sh.tables[NIL_TABLE] == map[]
    && forall m :: m in sh.tables ==> TableTyped(sh.heap, sh.tables[m])
  }

  /** Published tables hold only entries that are still in read, or expunged. */
  ghost predicate PublishedOk(sh: Shared) {
    forall m, k :: Frozen(sh, m) && k in TableOf(sh, m) ==> FastHold(sh, TableOf(sh, m)[k])
  }

  /** No dirty entry is expunged, dirty agrees with read, and an entry only dirty
      knows holds a value. */
  ghost predicate DirtyOk(sh: Shared) {
    forall k :: k in DirtyTable(sh) ==>
      && Slot(sh, DirtyTable(sh)[k]) != Pointer.Expunged
      && (k in ReadTable(sh) ==> DirtyTable(sh)[k] == ReadTable(sh)[k])
      && (k !in ReadTable(sh) ==> Slot(sh, DirtyTable(sh)[k]).To?)
  }

  ghost predicate Exempt(phase: Phase, k: Key) {
    phase == Putting(k) || (phase.Filling? && k in phase.todo)
  }

  /** A live entry of read is in dirty too, once dirty exists. */
  ghost predicate Covers(sh: Shared, phase: Phase) {
    sh.dirty.Some? ==>
      forall k :: k in ReadTable(sh) && !Exempt(phase, k) && Slot(sh, ReadTable(sh)[k]) != Pointer.Expunged
        ==> k in DirtyTable(sh)
  }

  /** Without a dirty map nothing in read is expunged. */
  ghost predicate NoneExpunged(sh: Shared) {
    sh.dirty.None? ==> forall k :: k in ReadTable(sh) ==> Slot(sh, ReadTable(sh)[k]) != Pointer.Expunged
  }

  ghost predicate Flag(sh: Shared, phase: Phase) {
    match phase
    case Stable => (sh.read.amended <==> sh.dirty.Some?) && sh.dirty != Some(sh.read.m)
    case Putting(_) => sh.read.amended && sh.dirty.Some? && sh.dirty != Some(sh.read.m)
    case Filling(todo) =>
      && !sh.read.amended && sh.dirty.Some? && sh.dirty != Some(sh.read.m)
      && DirtyTable(sh).Keys <= ReadTable(sh).Keys - todo
    case Publishing => !sh.read.amended && sh.dirty == Some(sh.read.m)
  }

  ghost predicate SharedOk(sh: Shared, phase: Phase) {
    && Typed(sh)
    && PublishedOk(sh)
    && DirtyOk(sh)
    && Covers(sh, phase)
    && NoneExpunged(sh)
    && Flag(sh, phase)
  }

  // ---------------------------------------------------------------- the threads

  function PhaseOf(pc: Pc): Phase {
    match pc
    case DirtyPut(e) => Putting(e.key)
    case Expunge(_, _, todo) => Filling(todo)
    case ExpungeLoad(_, _, todo, _) => Filling(todo)
    case ExpungeCas(_, _, todo, _) => Filling(todo)
    case MarkAmended(_) => Filling({})
    case Retire(_) => Publishing
    case _ => Stable
  }

  predicate IsPut(pc: Pc) { pc.PutLoad? || pc.PutCall? || pc.PutCas? || pc.PutReload? }

  predicate IsLeaving(pc: Pc) { pc.Miss? || pc.Publish? || pc.Retire? || pc.Unlock? }

  predicate InLock(pc: Pc) {
    || IsLeaving(pc) || pc.SlowRead? || pc.SlowLookup?
    || pc.Unexpunge? || pc.DirtyPut? || pc.StoreLocked? || pc.DirtyInit? || pc.Expunge? || pc.ExpungeLoad?
    || pc.ExpungeCas? || pc.MarkAmended? || pc.CallFn? || pc.InsertNew? || (IsPut(pc) && pc.path != Fast)
  }

  /** What a thread still does after it has let go of the lock. */
  predicate IsTail(pc: Pc) {
    pc.LoadSlot? || pc.DeleteLoad? || pc.DeleteCas? || pc.RangeIter? || pc.Respond?
  }

  /** The entry this thread alone took out of dirty and still has to clear. */
  function Mine(pc: Pc): Option<EntryId> {
    match pc
    case DeleteLoad(e, mine) => if mine then Some(e) else None
    case DeleteCas(e, _, mine) => if mine then Some(e) else None
    case Miss(next) => Mine(next)
    case Publish(next) => Mine(next)
    case Retire(next) => Mine(next)
    case Unlock(next) => Mine(next)
    case _ => None
  }

  /** Reading e now gives an answer the map gave at some instant since `start`. */
  ghost predicate HoldRead(sh: Shared, past: seq<Moment>, start: nat, e: EntryId) {
    && e in sh.heap
    && (Linked(sh, e) || SeenAt(past, start, e.key, None))
    && SeenAt(past, start, e.key, ValueOf(Slot(sh, e)))
  }

  ghost predicate Owns(sh: Shared, past: seq<Moment>, t: Tid, th: Thread, e: EntryId) {
    && e in sh.heap && !Linked(sh, e) && Slot(sh, e).To?
    && th.effect.Some?
    && Settled(past, t, th.op, th.start, th.effect, Lookup(ValueOf(Slot(sh, e))))
  }

  ghost predicate DeleteOk(sh: Shared, past: seq<Moment>, t: Tid, th: Thread, e: EntryId, mine: bool) {
    && th.op == LoadAndDelete(e.key)
    && if mine then Owns(sh, past, t, th, e)
       else th.effect.None? && HoldRead(sh, past, th.start, e) && FastHold(sh, e)
  }

  ghost predicate IterOk(sh: Shared, past: seq<Moment>, start: nat, m: TableId, todo: set<Key>, visited: Contents) {
    && Frozen(sh, m)
    && todo <= TableOf(sh, m).Keys
    && todo !! visited.Keys
    && (forall k :: k in TableOf(sh, m) ==> HoldRead(sh, past, start, TableOf(sh, m)[k]))
    && (forall k :: k in visited ==> SeenAt(past, start, k, Some(visited[k])))
    && (forall k :: k !in todo && k !in visited ==> SeenAt(past, start, k, None))
  }

  ghost predicate TailOk(sh: Shared, past: seq<Moment>, t: Tid, th: Thread, pc: Pc) {
    match pc
    case LoadSlot(e) => th.op == Load(e.key) && th.effect.None? && HoldRead(sh, past, th.start, e)
    case DeleteLoad(e, mine) => DeleteOk(sh, past, t, th, e, mine)
    case DeleteCas(e, seen, mine) => DeleteOk(sh, past, t, th, e, mine) && (mine ==> Slot(sh, e) == To(seen))
    case RangeIter(m, todo, visited) =>
      th.op == Range && th.effect.None? && IterOk(sh, past, th.start, m, todo, visited)
    case Respond(answer) => Settled(past, t, th.op, th.start, th.effect, answer)
    case _ => false
  }

  /** Everything a snapshot of read may be asked about was true during the call. */
  ghost predicate SnapOk(sh: Shared, past: seq<Moment>, start: nat, snap: ReadOnly) {
    && Frozen(sh, snap.m)
    && (forall k :: k in TableOf(sh, snap.m) ==> HoldRead(sh, past, start, TableOf(sh, snap.m)[k]))
    && (!snap.amended ==> forall k :: k !in TableOf(sh, snap.m) ==> SeenAt(past, start, k, None))
  }

  predicate IsStoring(op: Op) { op.Store? || op.LoadOrStore? }

  /** The operation is a store whose key neither read nor dirty has, with mu held. */
  ghost predicate KeyMissing(sh: Shared, op: Op) {
    IsStoring(op) && op.key !in ReadTable(sh) && op.key !in DirtyTable(sh)
  }

  ghost predicate PutOk(sh: Shared, past: seq<Moment>, th: Thread, e: EntryId, path: Path) {
    && th.op == LoadOrStore(e.key)
    && if path.Fast? then FastHold(sh, e) && HoldRead(sh, past, th.start, e)
       else e in sh.heap && Linked(sh, e) && Slot(sh, e) != Pointer.Expunged && (path.LockedDirty? ==> sh.dirty.Some?)
  }

  /** The Range continuation of Publish: the dirty table, about to be published. */
  ghost predicate RangePublish(sh: Shared, th: Thread, pc: Pc) {
    th.op == Range && th.effect.None? && pc == RangeIter(DirtyId(sh), DirtyTable(sh).Keys, map[])
  }

  /** Outside the lock, before the operation has taken effect. */
  ghost predicate FastOk(sh: Shared, past: seq<Moment>, th: Thread) {
    match th.pc
    case Idle => true
    case FastRead => true
    case FastLookup(snap) => SnapOk(sh, past, th.start, snap)
    case Acquire => true
    case StoreLoad(e) => th.op.Store? && e in sh.heap && e.key == th.op.key && FastHold(sh, e)
    case StoreCas(e, p) =>
      th.op.Store? && e in sh.heap && e.key == th.op.key && FastHold(sh, e) && p != Pointer.Expunged
    case PutLoad(e, path) => PutOk(sh, past, th, e, path)
    case PutCall(e, path) => PutOk(sh, past, th, e, path)
    case PutCas(e, path, _) => PutOk(sh, past, th, e, path)
    case PutReload(e, path, _) => PutOk(sh, past, th, e, path)
    case _ => false
  }

  /** dirtyLocked is copying read into the new dirty table. */
  ghost predicate FillOk(sh: Shared, th: Thread, snap: ReadOnly, src: TableId, todo: set<Key>) {
    snap == sh.read && src == snap.m && KeyMissing(sh, th.op) && todo <= ReadTable(sh).Keys
  }

  /** With mu held, and still something to do for the operation itself. */
  ghost predicate LockedOk(sh: Shared, past: seq<Moment>, th: Thread) {
    match th.pc
    case SlowRead => true
    case SlowLookup(snap) => snap == sh.read
    case Unexpunge(e) => IsStoring(th.op) && e in sh.heap && e.key == th.op.key && InRead(sh, e)
    case DirtyPut(e) =>
      && IsStoring(th.op) && e in sh.heap && e.key == th.op.key && InRead(sh, e)
      && Slot(sh, e) != Pointer.Expunged
    case StoreLocked(e) =>
      && th.op.Store? && e in sh.heap && e.key == th.op.key && Linked(sh, e)
      && Slot(sh, e) != Pointer.Expunged
    case PutLoad(e, path) => PutOk(sh, past, th, e, path)
    case PutCall(e, path) => PutOk(sh, past, th, e, path)
    case PutCas(e, path, _) => PutOk(sh, past, th, e, path)
    case PutReload(e, path, _) => PutOk(sh, past, th, e, path)
    case DirtyInit(snap) => snap == sh.read && !snap.amended && KeyMissing(sh, th.op)
    case Expunge(snap, src, todo) => FillOk(sh, th, snap, src, todo)
    case ExpungeLoad(snap, src, todo, k) => FillOk(sh, th, snap, src, todo) && k in todo
    case ExpungeCas(snap, src, todo, k) => FillOk(sh, th, snap, src, todo) && k in todo
    case MarkAmended(snap) => snap == sh.read && KeyMissing(sh, th.op)
    case CallFn => sh.read.amended && th.op.LoadOrStore? && KeyMissing(sh, th.op)
    case InsertNew(box) => sh.read.amended && KeyMissing(sh, th.op) && (th.op.Store? ==> box == th.op.box)
    case _ => false
  }

  /** With mu held, and only the unlocking (after a promotion, perhaps) ahead. */
  ghost predicate LeavingOk(sh: Shared, past: seq<Moment>, t: Tid, th: Thread) {
    match th.pc
    case Miss(next) => sh.dirty.Some? && TailOk(sh, past, t, th, next)
    case Publish(next) => sh.dirty.Some? && (TailOk(sh, past, t, th, next) || RangePublish(sh, th, next))
    case Retire(next) => TailOk(sh, past, t, th, next)
    case Unlock(next) => TailOk(sh, past, t, th, next)
    case _ => false
  }

  ghost predicate ThreadOk(sh: Shared, past: seq<Moment>, t: Tid, th: Thread) {
    if IsTail(th.pc) then TailOk(sh, past, t, th, th.pc)
    else if IsLeaving(th.pc) then LeavingOk(sh, past, t, th)
    else th.effect.None? && if InLock(th.pc) then LockedOk(sh, past, th) else FastOk(sh, past, th)
  }

  // ---------------------------------------------------------------- the whole state

  ghost predicate LockOk(sh: Shared, threads: map<Tid, Thread>) {
    && (sh.mu.Some? ==> sh.mu.value in threads)
    && forall t :: t in threads ==> (InLock(threads[t].pc) <==> sh.mu == Some(t))
  }

  function LockPhase(sh: Shared, threads: map<Tid, Thread>): Phase {
    if sh.mu.Some? && sh.mu.value in threads then PhaseOf(threads[sh.mu.value].pc) else Stable
  }

  /** An entry taken out of dirty is cleared by one thread only. */
  ghost predicate OneDeleter(threads: map<Tid, Thread>) {
    forall t, u :: t in threads && u in threads && t != u && Mine(threads[t].pc).Some?
      ==> Mine(threads[t].pc) != Mine(threads[u].pc)
  }

  ghost predicate MomentOk(past: seq<Moment>, i: nat)
    requires 1 <= i < |past|
  {
    match past[i].act
    case None => past[i].contents == past[i - 1].contents
    case Some(a) => a.start < i && Applies(a.op, past[i - 1].contents, a.answer, past[i].contents)
  }

  /** Every change of the abstract map is the effect of one operation, and is the
      change the sequential map makes for it. */
  ghost predicate HistoryOk(past: seq<Moment>) {
    && |past| > 0 && past[0] == Moment(map[], None)
    && forall i :: 1 <= i < |past| ==> MomentOk(past, i)
  }

  ghost predicate CallOk(past: seq<Moment>, call: Call) {
    && call.start < call.end <= |past|
    && Settled(past[..call.end], call.thread, call.op, call.start, call.effect, call.answer)
  }

  /** Every finished call was settled by the time it ended. */
  ghost predicate DoneOk(past: seq<Moment>, done: seq<Call>) {
    forall j :: 0 <= j < |done| ==> CallOk(past, done[j])
  }

  ghost predicate ThreadsOk(sh: Shared, past: seq<Moment>, threads: map<Tid, Thread>) {
    forall t :: t in threads ==> threads[t].start < |past| && ThreadOk(sh, past, t, threads[t])
  }

  ghost predicate Invariant(s: State) {
    && HistoryOk(s.past)
    && s.past[|s.past| - 1].contents == Abs(s.sh)
    && SharedOk(s.sh, LockPhase(s.sh, s.threads))
    && LockOk(s.sh, s.threads)
    && OneDeleter(s.threads)
    && ThreadsOk(s.sh, s.past, s.threads)
    && DoneOk(s.past, s.done)
  }
}
