/**
 Every action of a thread, one lemma for each: the action keeps the shared state in
 order, keeps its promise to the other threads, and leaves the thread itself at a
 program point whose assertion holds.
 */
module SyncMapSteps {
  import opened Options
  import opened SyncMapMachine
  import opened SyncMapInvariant
  import opened SyncMapEffects
  import opened SyncMapRely

  /** The situation before an action of thread t. */
  ghost predicate Ready(sh: Shared, past: seq<Moment>, t: Tid, th: Thread, phase: Phase) {
    && |past| > 0 && th.start < |past| && past[|past| - 1].contents == Abs(sh)
    && SharedOk(sh, phase)
    && ThreadOk(sh, past, t, th)
    && (InLock(th.pc) <==> sh.mu == Some(t))
    && (sh.mu == Some(t) ==> phase == PhaseOf(th.pc))
    && (sh.mu.None? ==> phase == Stable)
  }

  /** The entry this action clears on the strength of owning it. */
  function OwnOf(sh: Shared, pc: Pc): Option<EntryId> {
    if pc.DeleteCas? && pc.mine && Slot(sh, pc.e) == To(pc.seen) then Some(pc.e) else None
  }

  function MovedThread(past: seq<Moment>, th: Thread, move: Move): Thread {
    th.(pc := move.pc, effect := if move.effect.Some? then Some(|past|) else th.effect)
  }

  function MoveAct(t: Tid, th: Thread, move: Move): Option<Act> {
    if move.effect.Some? then Some(Act(t, th.start, th.op, move.effect.value)) else None
  }

  function MovedPhase(sh: Shared, t: Tid, phase: Phase, move: Move): Phase {
    if move.sh.mu == Some(t) then PhaseOf(move.pc) else if sh.mu == Some(t) then Stable else phase
  }

  /** Only the thread itself takes or releases its lock. */
  ghost predicate LockMove(sh: Shared, t: Tid, move: Move) {
    && (InLock(move.pc) <==> move.sh.mu == Some(t))
    && (move.sh.mu == sh.mu || (sh.mu.None? && move.sh.mu == Some(t)) || (sh.mu == Some(t) && move.sh.mu.None?))
  }

  /** The change of the abstract map is the one the effect accounts for. */
  ghost predicate EffectOk(sh: Shared, th: Thread, move: Move) {
    match move.effect
    case None => Abs(move.sh) == Abs(sh)
    case Some(answer) => th.effect.None? && Applies(th.op, Abs(sh), answer, Abs(move.sh))
  }

  ghost predicate MoveOk(sh: Shared, past: seq<Moment>, t: Tid, th: Thread, phase: Phase, move: Move) {
    && SharedOk(move.sh, MovedPhase(sh, t, phase, move))
    && Guarantee(sh, move.sh, OwnOf(sh, th.pc))
    && (sh.mu.Some? && sh.mu != Some(t) ==> LockGuarantee(sh, move.sh))
    && LockMove(sh, t, move)
    && !move.pc.Idle?
    && EffectOk(sh, th, move)
    && ThreadOk(move.sh, past + [Moment(Abs(move.sh), MoveAct(t, th, move))], t, MovedThread(past, th, move))
    && (Mine(move.pc).Some? ==> Mine(move.pc) == Mine(th.pc) || Linked(sh, Mine(move.pc).value))
  }

  // ---------------------------------------------------------------- steps that change nothing shared

  lemma NoChange(sh: Shared)
    ensures Guarantee(sh, sh, None) && LockGuarantee(sh, sh)
  {
  }

  /** An entry found now reads as the map reads now. */
  lemma HoldNow(sh: Shared, past: seq<Moment>, start: nat, e: EntryId)
    requires |past| > 0 && start < |past| && past[|past| - 1].contents == Abs(sh)
    requires e in sh.heap && Linked(sh, e)
    ensures HoldRead(sh, past, start, e)
  {
    assert Get(past[|past| - 1].contents, e.key) == CurrentValue(sh, e.key);
  }

  lemma AbsentNow(sh: Shared, past: seq<Moment>, start: nat, k: Key)
    requires |past| > 0 && start < |past| && past[|past| - 1].contents == Abs(sh)
    requires CurrentValue(sh, k).None?
    ensures SeenAt(past, start, k, None)
  {
    assert Get(past[|past| - 1].contents, k) == None;
  }

  /** A failed lookup or deletion is settled once the key was seen absent. */
  lemma SettleAbsent(past: seq<Moment>, t: Tid, op: Op, start: nat)
    requires op.Load? || op.LoadAndDelete?
    requires SeenAt(past, start, op.key, None)
    ensures Settled(past, t, op, start, None, Lookup(None))
  {
    var i :| start <= i < |past| && Get(past[i].contents, op.key) == None;
    assert past[i].contents - {op.key} == past[i].contents;
    assert Applies(op, past[i].contents, Lookup(None), past[i].contents);
  }

  /** A lookup is settled by any value the key had during the call. */
  lemma SettleLoad(past: seq<Moment>, t: Tid, op: Op, start: nat, o: Option<Value>)
    requires op.Load? && SeenAt(past, start, op.key, o)
    ensures Settled(past, t, op, start, None, Lookup(o))
  {
    var i :| start <= i < |past| && Get(past[i].contents, op.key) == o;
    assert Applies(op, past[i].contents, Lookup(o), past[i].contents);
  }

  /** So is a LoadOrStore that loads. */
  lemma SettleLoaded(past: seq<Moment>, t: Tid, op: Op, start: nat, v: Value)
    requires op.LoadOrStore? && SeenAt(past, start, op.key, Some(v))
    ensures Settled(past, t, op, start, None, Actual(Some(v), true))
  {
    var i :| start <= i < |past| && Get(past[i].contents, op.key) == Some(v);
    assert Applies(op, past[i].contents, Actual(Some(v), true), past[i].contents);
  }

  /** The step that takes effect settles its operation. */
  lemma SettleEffect(past: seq<Moment>, m: Moment, t: Tid, op: Op, start: nat, answer: Answer)
    requires start < |past| && m.act == Some(Act(t, start, op, answer))
    ensures Settled(past + [m], t, op, start, Some(|past|), answer)
  {
    assert (past + [m])[|past|] == m;
  }

  /** A snapshot of read taken now can be asked about any key. */
  lemma SnapNow(sh: Shared, past: seq<Moment>, start: nat, phase: Phase)
    requires SharedOk(sh, phase)
    requires |past| > 0 && start < |past| && past[|past| - 1].contents == Abs(sh)
    ensures SnapOk(sh, past, start, sh.read)
  {
    assert TableTyped(sh.heap, sh.tables[sh.read.m]);
    forall k | k in ReadTable(sh) ensures HoldRead(sh, past, start, ReadTable(sh)[k]) {
      HoldNow(sh, past, start, ReadTable(sh)[k]);
    }
    forall k | !sh.read.amended && k !in ReadTable(sh) ensures SeenAt(past, start, k, None) {
      AbsentNow(sh, past, start, k);
    }
  }

  /** The moment a step without effect appends. */
  function Quiet(sh: Shared): Moment { Moment(Abs(sh), None) }

  /** A step that only changes the thread's own program point. */
  lemma Stay(sh: Shared, past: seq<Moment>, t: Tid, th: Thread, phase: Phase, pc: Pc)
    requires Ready(sh, past, t, th, phase)
    requires (InLock(pc) <==> InLock(th.pc)) && (InLock(pc) ==> PhaseOf(pc) == phase)
    requires !pc.Idle? && OwnOf(sh, th.pc).None? && (Mine(pc).Some? ==> Mine(pc) == Mine(th.pc))
    ensures ThreadOk(sh, past + [Quiet(sh)], t, th.(pc := pc)) ==> MoveOk(sh, past, t, th, phase, Goto(sh, pc))
  {
    NoChange(sh);
  }

  lemma FastReadStep(sh: Shared, past: seq<Moment>, t: Tid, th: Thread, phase: Phase)
    requires Ready(sh, past, t, th, phase) && th.pc.FastRead?
    ensures MoveOk(sh, past, t, th, phase, LookupMove(sh, t, th.op, th.pc))
  {
    SnapNow(sh, past + [Quiet(sh)], th.start, phase);
    Stay(sh, past, t, th, phase, FastLookup(sh.read));
  }

  lemma FastLookupThread(sh: Shared, past: seq<Moment>, t: Tid, th: Thread, phase: Phase)
    requires SharedOk(sh, phase) && th.pc.FastLookup? && th.effect.None? && SnapOk(sh, past, th.start, th.pc.snap)
    ensures ThreadOk(sh, past, t, th.(pc := FastLookupMove(sh, th.op, th.pc.snap).pc))
  {
    hide LockedOk, LeavingOk, HoldRead, FastHold, Abs, DirtyOk, Covers, Flag, SeenAt;
    hide NoneExpunged, Settled, RangeAnswer;
    var snap := th.pc.snap;
    assert TableTyped(sh.heap, sh.tables[snap.m]);
    if !th.op.Range? {
      if th.op.key in TableOf(sh, snap.m) {
        assert FastHold(sh, TableOf(sh, snap.m)[th.op.key]);
      } else if !snap.amended && (th.op.Load? || th.op.LoadAndDelete?) {
        SettleAbsent(past, t, th.op, th.start);
      }
    }
  }

  lemma FastLookupStep(sh: Shared, past: seq<Moment>, t: Tid, th: Thread, phase: Phase)
    requires Ready(sh, past, t, th, phase) && th.pc.FastLookup?
    ensures MoveOk(sh, past, t, th, phase, LookupMove(sh, t, th.op, th.pc))
  {
    hide SharedOk, Guarantee, LockGuarantee, SnapOk, TailOk, Abs, HoldRead, FastHold;
    NoChange(sh);
    SnapStays(sh, sh, None, past, Quiet(sh), th.start, th.pc.snap);
    FastLookupThread(sh, past + [Quiet(sh)], t, th, phase);
    Stay(sh, past, t, th, phase, FastLookupMove(sh, th.op, th.pc.snap).pc);
  }

  // ---------------------------------------------------------------- the locked lookups

  lemma AcquireStep(sh: Shared, past: seq<Moment>, t: Tid, th: Thread, phase: Phase)
    requires Ready(sh, past, t, th, phase) && th.pc.Acquire?
    ensures MoveOk(sh, past, t, th, phase, LookupMove(sh, t, th.op, th.pc))
  {
    hide SharedOk, Guarantee, Abs;
    if sh.mu.None? {
      CountersOnly(sh, phase, sh.misses, Some(t));
    } else {
      Stay(sh, past, t, th, phase, Acquire);
    }
  }

  lemma SlowReadStep(sh: Shared, past: seq<Moment>, t: Tid, th: Thread, phase: Phase)
    requires Ready(sh, past, t, th, phase) && th.pc.SlowRead?
    ensures MoveOk(sh, past, t, th, phase, LookupMove(sh, t, th.op, th.pc))
  {
    hide SharedOk, Guarantee, LockGuarantee, Abs;
    Stay(sh, past, t, th, phase, SlowLookup(sh.read));
  }

  predicate Removes(sh: Shared, op: Op) {
    op.LoadAndDelete? && op.key !in ReadTable(sh) && sh.read.amended && op.key in DirtyTable(sh)
  }

  ghost predicate UpToDate(sh: Shared, past: seq<Moment>, start: nat) {
    |past| > 0 && start < |past| && past[|past| - 1].contents == Abs(sh) && SharedOk(sh, Stable)
  }

  lemma SlowFound(sh: Shared, past: seq<Moment>, t: Tid, th: Thread)
    requires UpToDate(sh, past, th.start) && th.pc == SlowLookup(sh.read) && th.effect.None?
    requires (th.op.Load? || th.op.LoadAndDelete?) && !Removes(sh, th.op)
    requires th.op.key in ReadTable(sh)
    ensures ThreadOk(sh, past, t, th.(pc := SlowLookupMove(sh, th.op, sh.read).pc))
  {
    hide LockedOk, FastOk, SeenAt, Abs, HoldRead, Covers, PublishedOk, DirtyOk, NoneExpunged;
    assert TableTyped(sh.heap, ReadTable(sh));
    HoldNow(sh, past, th.start, ReadTable(sh)[th.op.key]);
  }

  lemma SlowFoundDirty(sh: Shared, past: seq<Moment>, t: Tid, th: Thread)
    requires UpToDate(sh, past, th.start) && th.pc == SlowLookup(sh.read) && th.effect.None?
    requires (th.op.Load? || th.op.LoadAndDelete?) && !Removes(sh, th.op)
    requires th.op.key !in ReadTable(sh) && sh.read.amended && th.op.key in DirtyTable(sh)
    ensures ThreadOk(sh, past, t, th.(pc := SlowLookupMove(sh, th.op, sh.read).pc))
  {
    hide LockedOk, FastOk, SeenAt, Abs, HoldRead, Covers, PublishedOk, DirtyOk, NoneExpunged;
    assert TableTyped(sh.heap, DirtyTable(sh));
    HoldNow(sh, past, th.start, DirtyTable(sh)[th.op.key]);
  }

  lemma SlowMissed(sh: Shared, past: seq<Moment>, t: Tid, th: Thread)
    requires UpToDate(sh, past, th.start) && th.pc == SlowLookup(sh.read) && th.effect.None?
    requires (th.op.Load? || th.op.LoadAndDelete?) && !Removes(sh, th.op)
    requires th.op.key !in ReadTable(sh) && (sh.read.amended ==> th.op.key !in DirtyTable(sh))
    ensures ThreadOk(sh, past, t, th.(pc := SlowLookupMove(sh, th.op, sh.read).pc))
  {
    hide LockedOk, FastOk, SeenAt, Abs, HoldRead, Covers, PublishedOk, NoneExpunged;
    AbsentNow(sh, past, th.start, th.op.key);
    SettleAbsent(past, t, th.op, th.start);
  }

  lemma SlowFind(sh: Shared, past: seq<Moment>, t: Tid, th: Thread)
    requires UpToDate(sh, past, th.start) && th.pc == SlowLookup(sh.read) && th.effect.None?
    requires (th.op.Load? || th.op.LoadAndDelete?) && !Removes(sh, th.op)
    ensures ThreadOk(sh, past, t, th.(pc := SlowLookupMove(sh, th.op, sh.read).pc))
  {
    hide ThreadOk, SlowLookupMove, UpToDate, Removes;
    if th.op.key in ReadTable(sh) {
      SlowFound(sh, past, t, th);
    } else if sh.read.amended && th.op.key in DirtyTable(sh) {
      SlowFoundDirty(sh, past, t, th);
    } else {
      SlowMissed(sh, past, t, th);
    }
  }

  lemma SlowStore(sh: Shared, past: seq<Moment>, t: Tid, th: Thread)
    requires UpToDate(sh, past, th.start) && th.pc == SlowLookup(sh.read) && th.effect.None?
    requires IsStoring(th.op)
    ensures ThreadOk(sh, past, t, th.(pc := SlowLookupMove(sh, th.op, sh.read).pc))
  {
    hide LeavingOk, TailOk, FastOk, SeenAt, Abs, HoldRead, Covers;
    assert TableTyped(sh.heap, ReadTable(sh)) && TableTyped(sh.heap, DirtyTable(sh));
  }

  lemma SlowRange(sh: Shared, past: seq<Moment>, t: Tid, th: Thread)
    requires UpToDate(sh, past, th.start) && th.pc == SlowLookup(sh.read) && th.effect.None?
    requires th.op.Range?
    ensures ThreadOk(sh, past, t, th.(pc := SlowLookupMove(sh, th.op, sh.read).pc))
  {
    hide LockedOk, FastOk, SeenAt, Abs, HoldRead, Covers;
    SnapNow(sh, past, th.start, Stable);
  }

  lemma SlowRemove(sh: Shared, past: seq<Moment>, t: Tid, th: Thread)
    requires Ready(sh, past, t, th, Stable) && th.pc.SlowLookup? && Removes(sh, th.op) && sh.mu == Some(t)
    ensures MoveOk(sh, past, t, th, Stable, LookupMove(sh, t, th.op, th.pc))
  {
    hide Guarantee, LockGuarantee, SnapOk, HoldRead, FastHold, FastOk, Abs, Typed, PublishedOk, DirtyOk, Covers;
    var k := th.op.key;
    var e := DirtyTable(sh)[k];
    assert th.pc.snap == sh.read && th.effect.None? && sh.dirty.Some?;
    RemoveDirty(sh, k);
    hide SharedOk;
    var move := SlowLookupMove(sh, th.op, sh.read);
    assert move.effect == Some(Lookup(ValueOf(Slot(sh, e))));
    var m := Moment(Abs(move.sh), MoveAct(t, th, move));
    SettleEffect(past, m, t, th.op, th.start, Lookup(ValueOf(Slot(sh, e))));
    assert LookupMove(sh, t, th.op, th.pc) == move && Mine(move.pc) == Some(e);
    assert MoveOk(sh, past, t, th, Stable, move);
  }

  lemma SlowLookupStep(sh: Shared, past: seq<Moment>, t: Tid, th: Thread, phase: Phase)
    requires Ready(sh, past, t, th, phase) && th.pc.SlowLookup?
    ensures MoveOk(sh, past, t, th, phase, LookupMove(sh, t, th.op, th.pc))
  {
    hide SharedOk, Guarantee, LockGuarantee, SnapOk, TailOk, Abs, HoldRead, FastHold;
    if Removes(sh, th.op) {
      SlowRemove(sh, past, t, th);
    } else {
      if th.op.Load? || th.op.LoadAndDelete? {
        SlowFind(sh, past + [Quiet(sh)], t, th);
      } else if th.op.Range? {
        SlowRange(sh, past + [Quiet(sh)], t, th);
      } else {
        SlowStore(sh, past + [Quiet(sh)], t, th);
      }
      Stay(sh, past, t, th, phase, SlowLookupMove(sh, th.op, sh.read).pc);
    }
  }

  // ---------------------------------------------------------------- leaving the lock

  /** What a tail asserts does not depend on the program point of the thread. */
  lemma TailThread(sh: Shared, past: seq<Moment>, t: Tid, th: Thread, pc: Pc, next: Pc)
    requires TailOk(sh, past, t, th, next)
    ensures TailOk(sh, past, t, th.(pc := pc), next)
  {
    hide HoldRead, FastHold, IterOk, Settled;
  }

  lemma MissStep(sh: Shared, past: seq<Moment>, t: Tid, th: Thread, phase: Phase)
    requires Ready(sh, past, t, th, phase) && th.pc.Miss?
    ensures MoveOk(sh, past, t, th, phase, LeaveMove(sh, th.pc))
  {
    hide SharedOk, Guarantee, LockGuarantee, TailOk, Abs, LockedOk, FastOk;
    var sh' := sh.(misses := sh.misses + 1);
    CountersOnly(sh, phase, sh.misses + 1, sh.mu);
    TailStays(sh, sh', None, past, Quiet(sh'), t, th, th.pc.next);
    TailThread(sh', past + [Quiet(sh')], t, th, LeaveMove(sh, th.pc).pc, th.pc.next);
  }

  /** After Range has published the dirty table it may iterate over it. */
  lemma PublishRange(sh: Shared, sh': Shared, past: seq<Moment>, t: Tid, th: Thread, next: Pc)
    requires SharedOk(sh', Publishing) && sh' == sh.(read := ReadOnly(DirtyId(sh), false))
    requires RangePublish(sh, th, next)
    requires |past| > 0 && th.start < |past| && past[|past| - 1].contents == Abs(sh')
    ensures TailOk(sh', past, t, th, next)
  {
    hide HoldRead, SeenAt, Abs;
    SnapNow(sh', past, th.start, Publishing);
    assert DirtyTable(sh) == ReadTable(sh');
  }

  lemma PublishStep(sh: Shared, past: seq<Moment>, t: Tid, th: Thread, phase: Phase)
    requires Ready(sh, past, t, th, phase) && th.pc.Publish?
    ensures MoveOk(sh, past, t, th, phase, LeaveMove(sh, th.pc))
  {
    hide SharedOk, Guarantee, LockGuarantee, TailOk, Abs, LockedOk, FastOk;
    var sh' := sh.(read := ReadOnly(DirtyId(sh), false));
    var next := th.pc.next;
    PublishDirty(sh);
    if TailOk(sh, past, t, th, next) {
      TailStays(sh, sh', None, past, Quiet(sh'), t, th, next);
      TailThread(sh', past + [Quiet(sh')], t, th, Retire(next), next);
    } else {
      PublishRange(sh, sh', past + [Quiet(sh')], t, th.(pc := Retire(next)), next);
    }
    assert LeaveMove(sh, th.pc) == Goto(sh', Retire(next));
  }

  lemma RetireStep(sh: Shared, past: seq<Moment>, t: Tid, th: Thread, phase: Phase)
    requires Ready(sh, past, t, th, phase) && th.pc.Retire?
    ensures MoveOk(sh, past, t, th, phase, LeaveMove(sh, th.pc))
  {
    hide SharedOk, Guarantee, LockGuarantee, TailOk, Abs, LockedOk, FastOk;
    var sh' := sh.(dirty := None, misses := 0);
    RetireDirty(sh);
    TailStays(sh, sh', None, past, Quiet(sh'), t, th, th.pc.next);
    TailThread(sh', past + [Quiet(sh')], t, th, Unlock(th.pc.next), th.pc.next);
  }

  lemma UnlockStep(sh: Shared, past: seq<Moment>, t: Tid, th: Thread, phase: Phase)
    requires Ready(sh, past, t, th, phase) && th.pc.Unlock?
    ensures MoveOk(sh, past, t, th, phase, LeaveMove(sh, th.pc))
  {
    hide SharedOk, Guarantee, LockGuarantee, Abs, LockedOk, FastOk, HoldRead, FastHold;
    hide Settled, SeenAt, IterOk, DeleteOk;
    var sh' := sh.(mu := None);
    CountersOnly(sh, phase, sh.misses, None);
    TailStays(sh, sh', None, past, Quiet(sh'), t, th, th.pc.next);
    TailThread(sh', past + [Quiet(sh')], t, th, th.pc.next, th.pc.next);
  }

  // ---------------------------------------------------------------- reading and deleting

  lemma LoadSlotStep(sh: Shared, past: seq<Moment>, t: Tid, th: Thread, phase: Phase)
    requires Ready(sh, past, t, th, phase) && th.pc.LoadSlot?
    ensures MoveOk(sh, past, t, th, phase, DeleteMove(sh, th.pc))
  {
    hide SharedOk, Guarantee, LockGuarantee, Abs, LockedOk, FastOk, Settled, SeenAt;
    var e := th.pc.e;
    SeenStays(past, Quiet(sh), th.start, e.key, ValueOf(Slot(sh, e)));
    SettleLoad(past + [Quiet(sh)], t, th.op, th.start, ValueOf(Slot(sh, e)));
    Stay(sh, past, t, th, phase, Respond(Lookup(ValueOf(Slot(sh, e)))));
  }

  lemma DeleteLoadStep(sh: Shared, past: seq<Moment>, t: Tid, th: Thread, phase: Phase)
    requires Ready(sh, past, t, th, phase) && th.pc.DeleteLoad?
    ensures MoveOk(sh, past, t, th, phase, DeleteMove(sh, th.pc))
  {
    hide SharedOk, Guarantee, LockGuarantee, Abs, LockedOk, FastOk, Settled, SeenAt, FastHold;
    var e := th.pc.e;
    NoChange(sh);
    if Slot(sh, e).To? {
      DeleteStays(sh, sh, None, past, Quiet(sh), t, th, e, th.pc.mine);
      Stay(sh, past, t, th, phase, DeleteCas(e, Slot(sh, e).box, th.pc.mine));
    } else {
      SeenStays(past, Quiet(sh), th.start, e.key, None);
      SettleAbsent(past + [Quiet(sh)], t, th.op, th.start);
      Stay(sh, past, t, th, phase, Respond(Lookup(None)));
    }
  }

  /** Where a thread goes once its operation is answered. */
  predicate Answers(pc: Pc, answer: Answer) {
    pc == Respond(answer) || pc == Unlock(Respond(answer)) || pc == Miss(Respond(answer))
  }

  /** An answered operation has nothing left to assert. */
  lemma Answered(sh: Shared, past: seq<Moment>, t: Tid, th: Thread, answer: Answer)
    requires Answers(th.pc, answer) && Settled(past, t, th.op, th.start, th.effect, answer)
    requires th.pc.Miss? ==> sh.dirty.Some?
    ensures ThreadOk(sh, past, t, th) && Mine(th.pc).None?
  {
    hide Settled;
  }

  /** A write through an entry of the map that is the effect of the operation. */
  lemma Write(sh: Shared, past: seq<Moment>, t: Tid, th: Thread, phase: Phase,
              e: EntryId, p: Pointer, pc: Pc, answer: Answer)
    requires Ready(sh, past, t, th, phase) && th.effect.None? && OwnOf(sh, th.pc).None?
    requires e in sh.heap && Linked(sh, e) && Slot(sh, e) != Pointer.Expunged && p != Pointer.Expunged
    requires p == Nil ==> InRead(sh, e)
    requires Answers(pc, answer) && (InLock(pc) <==> InLock(th.pc)) && (InLock(pc) ==> phase == Stable)
    requires pc.Miss? ==> sh.dirty.Some?
    requires Applies(th.op, Abs(sh), answer, Abs(SetSlot(sh, e, p)))
    ensures MoveOk(sh, past, t, th, phase, Move(SetSlot(sh, e, p), pc, Some(answer)))
  {
    hide SharedOk, Guarantee, LockGuarantee, Abs, LockedOk, FastOk, Settled, Applies, SeenAt, HoldRead, FastHold;
    var sh' := SetSlot(sh, e, p);
    WriteLinked(sh, phase, e, p);
    hide Linked, InRead;
    var m := Moment(Abs(sh'), Some(Act(t, th.start, th.op, answer)));
    SettleEffect(past, m, t, th.op, th.start, answer);
    Answered(sh', past + [m], t, th.(pc := pc, effect := Some(|past|)), answer);
    hide ThreadOk;
  }

  /** Writing through an entry of the map writes its key in the plain map. */
  lemma WriteValue(sh: Shared, phase: Phase, e: EntryId, p: Pointer)
    requires SharedOk(sh, phase) && Linked(sh, e)
    ensures Get(Abs(sh), e.key) == ValueOf(Slot(sh, e))
    ensures var m := Abs(SetSlot(sh, e, p));
      m == if p.To? then Abs(sh)[e.key := p.box.value] else Abs(sh) - {e.key}
  {
    var sh' := SetSlot(sh, e, p);
    assert ReadTable(sh') == ReadTable(sh) && DirtyTable(sh') == DirtyTable(sh);
    assert forall k :: Current(sh', k) == Current(sh, k);
    assert CurrentValue(sh', e.key) == ValueOf(p);
    assert TableTyped(sh.heap, ReadTable(sh)) && TableTyped(sh.heap, DirtyTable(sh));
    assert forall k :: k != e.key ==> Current(sh, k) != Some(e) && CurrentValue(sh', k) == CurrentValue(sh, k);
  }

  /** compare-and-swap to nil through an entry of read deletes its key. */
  lemma DeleteLinked(sh: Shared, past: seq<Moment>, t: Tid, th: Thread, phase: Phase)
    requires Ready(sh, past, t, th, phase) && th.pc.DeleteCas? && !th.pc.mine && Slot(sh, th.pc.e) == To(th.pc.seen)
    ensures MoveOk(sh, past, t, th, phase, DeleteMove(sh, th.pc))
  {
    hide SharedOk, Guarantee, LockGuarantee, Abs, LockedOk, FastOk, Settled, SeenAt;
    WriteValue(sh, phase, th.pc.e, Nil);
    var answer := Lookup(Some(th.pc.seen.value));
    Write(sh, past, t, th, phase, th.pc.e, Nil, Respond(answer), answer);
  }

  lemma DeleteCasStep(sh: Shared, past: seq<Moment>, t: Tid, th: Thread, phase: Phase)
    requires Ready(sh, past, t, th, phase) && th.pc.DeleteCas?
    ensures MoveOk(sh, past, t, th, phase, DeleteMove(sh, th.pc))
  {
    hide SharedOk, Guarantee, LockGuarantee, Abs, LockedOk, FastOk, Settled, SeenAt, HoldRead, Linked, InRead;
    var e := th.pc.e;
    NoChange(sh);
    if Slot(sh, e) != To(th.pc.seen) {
      DeleteStays(sh, sh, None, past, Quiet(sh), t, th, e, th.pc.mine);
      Stay(sh, past, t, th, phase, DeleteLoad(e, th.pc.mine));
    } else if th.pc.mine {
      ClearOwned(sh, phase, e);
      SettledStays(past, Quiet(sh), t, th.op, th.start, th.effect, Lookup(Some(th.pc.seen.value)));
    } else {
      DeleteLinked(sh, past, t, th, phase);
    }
  }

  // ---------------------------------------------------------------- storing

  lemma StoreLoadStep(sh: Shared, past: seq<Moment>, t: Tid, th: Thread, phase: Phase)
    requires Ready(sh, past, t, th, phase) && th.pc.StoreLoad?
    ensures MoveOk(sh, past, t, th, phase, StoreMove(sh, th.op, th.pc))
  {
    hide SharedOk, Guarantee, LockGuarantee, Abs, LockedOk, FastHold;
    Stay(sh, past, t, th, phase, StoreMove(sh, th.op, th.pc).pc);
  }

  lemma StoreCasStep(sh: Shared, past: seq<Moment>, t: Tid, th: Thread, phase: Phase)
    requires Ready(sh, past, t, th, phase) && th.pc.StoreCas?
    ensures MoveOk(sh, past, t, th, phase, StoreMove(sh, th.op, th.pc))
  {
    hide SharedOk, Guarantee, LockGuarantee, Abs, LockedOk, Settled, MoveOk;
    var e := th.pc.e;
    if Slot(sh, e) == th.pc.p {
      WriteValue(sh, phase, e, To(th.op.box));
      Write(sh, past, t, th, phase, e, To(th.op.box), Respond(Done), Done);
    } else {
      Stay(sh, past, t, th, phase, StoreLoad(e));
    }
  }

  lemma UnexpungeStep(sh: Shared, past: seq<Moment>, t: Tid, th: Thread, phase: Phase)
    requires Ready(sh, past, t, th, phase) && th.pc.Unexpunge?
    ensures MoveOk(sh, past, t, th, phase, StoreMove(sh, th.op, th.pc))
  {
    hide SharedOk, Guarantee, LockGuarantee, Abs, FastOk, TailOk;
    var e := th.pc.e;
    if Slot(sh, e) == Pointer.Expunged {
      ClearExpunged(sh, e);
    } else {
      Stay(sh, past, t, th, phase, StoreMove(sh, th.op, th.pc).pc);
    }
  }

  lemma PutKeepsRead(sh: Shared, phase: Phase, k: Key, e: EntryId)
    requires SharedOk(sh, phase) && (phase.Putting? || phase.Filling?)
    ensures ReadTable(SetDirty(sh, DirtyTable(sh)[k := e])) == ReadTable(sh)
    ensures DirtyTable(SetDirty(sh, DirtyTable(sh)[k := e])) == DirtyTable(sh)[k := e]
  {
  }

  lemma DirtyPutStep(sh: Shared, past: seq<Moment>, t: Tid, th: Thread, phase: Phase)
    requires Ready(sh, past, t, th, phase) && th.pc.DirtyPut?
    ensures MoveOk(sh, past, t, th, phase, StoreMove(sh, th.op, th.pc))
  {
    hide Guarantee, LockGuarantee, Abs, FastOk, TailOk, Typed, PublishedOk, DirtyOk, Covers;
    var e := th.pc.e;
    assert sh.dirty.Some?;
    PutDirty(sh, phase, e.key, Stable);
    hide SharedOk;
    var sh' := SetDirty(sh, DirtyTable(sh)[e.key := e]);
    assert ReadTable(sh') == ReadTable(sh) by { PutKeepsRead(sh, phase, e.key, e); }
  }

  lemma StoreLockedStep(sh: Shared, past: seq<Moment>, t: Tid, th: Thread, phase: Phase)
    requires Ready(sh, past, t, th, phase) && th.pc.StoreLocked?
    ensures MoveOk(sh, past, t, th, phase, StoreMove(sh, th.op, th.pc))
  {
    hide SharedOk, Guarantee, LockGuarantee, Abs, FastOk, Settled, MoveOk;
    WriteValue(sh, phase, th.pc.e, To(th.op.box));
    Write(sh, past, t, th, phase, th.pc.e, To(th.op.box), Unlock(Respond(Done)), Done);
  }

  // ---------------------------------------------------------------- tryLoadOrStore

  lemma PutStays(sh: Shared, past: seq<Moment>, th: Thread, e: EntryId, path: Path)
    requires PutOk(sh, past, th, e, path) && th.start <= |past|
    ensures PutOk(sh, past + [Quiet(sh)], th, e, path)
  {
    if path.Fast? {
      NoChange(sh);
      HoldReadStays(sh, sh, None, past, Quiet(sh), th.start, e);
    }
  }

  /** A value found in the entry is a value the key had during the call. */
  lemma PutLoaded(sh: Shared, past: seq<Moment>, t: Tid, th: Thread, e: EntryId, path: Path)
    requires PutOk(sh, past, th, e, path) && Slot(sh, e).To?
    requires |past| > 0 && th.start < |past| && past[|past| - 1].contents == Abs(sh)
    ensures Settled(past, t, th.op, th.start, None, Actual(Some(Slot(sh, e).box.value), true))
  {
    hide Abs, Settled;
    if !path.Fast? {
      HoldNow(sh, past, th.start, e);
    }
    SettleLoaded(past, t, th.op, th.start, Slot(sh, e).box.value);
  }

  /** The ways a tryLoadOrStore goes on when it does not write: it keeps trying,
      gives up on an expunged entry, or answers with the value it found. */
  predicate PutGoesOn(sh: Shared, e: EntryId, path: Path, pc: Pc) {
    || (IsPut(pc) && pc.e == e && pc.path == path)
    || (Slot(sh, e) == Pointer.Expunged && path.Fast? && pc == Acquire)
    || (Slot(sh, e).To? && pc == AfterPut(path, Actual(Some(Slot(sh, e).box.value), true)))
  }

  lemma PutIsOk(sh: Shared, past: seq<Moment>, t: Tid, th: Thread, phase: Phase)
    requires Ready(sh, past, t, th, phase) && IsPut(th.pc)
    ensures th.start < |past| && th.effect.None? && PutOk(sh, past, th, th.pc.e, th.pc.path)
  {
    hide SharedOk, Abs, PutOk, TailOk;
  }

  lemma PutPoints(sh: Shared, past: seq<Moment>, t: Tid, th: Thread, phase: Phase, pc: Pc)
    requires Ready(sh, past, t, th, phase) && IsPut(th.pc) && PutGoesOn(sh, th.pc.e, th.pc.path, pc)
    ensures !pc.Idle? && OwnOf(sh, th.pc).None? && (InLock(pc) <==> InLock(th.pc)) && Mine(pc).None?
    ensures PhaseOf(pc) == PhaseOf(th.pc) && (InLock(pc) ==> PhaseOf(pc) == phase)
  {
    hide SharedOk, ThreadOk, Abs;
  }

  lemma PutThread(sh: Shared, past: seq<Moment>, t: Tid, th: Thread, pc: Pc)
    requires |past| > 0 && th.start < |past| && past[|past| - 1].contents == Abs(sh)
    requires IsPut(th.pc) && th.effect.None? && PutOk(sh, past, th, th.pc.e, th.pc.path)
    requires PutGoesOn(sh, th.pc.e, th.pc.path, pc)
    ensures ThreadOk(sh, past, t, th.(pc := pc))
  {
    hide Abs, FastHold, HoldRead, Settled, TailOk, LeavingOk;
    if !IsPut(pc) && Slot(sh, th.pc.e).To? {
      PutLoaded(sh, past, t, th, th.pc.e, th.pc.path);
      Answered(sh, past, t, th.(pc := pc), Actual(Some(Slot(sh, th.pc.e).box.value), true));
    }
  }

  lemma PutReads(sh: Shared, past: seq<Moment>, t: Tid, th: Thread, phase: Phase, pc: Pc)
    requires Ready(sh, past, t, th, phase) && IsPut(th.pc)
    requires PutGoesOn(sh, th.pc.e, th.pc.path, pc)
    ensures MoveOk(sh, past, t, th, phase, Goto(sh, pc))
  {
    hide Ready, ThreadOk, MoveOk, PutOk, PutGoesOn, Abs, OwnOf, InLock, Mine, PhaseOf;
    PutIsOk(sh, past, t, th, phase);
    PutPoints(sh, past, t, th, phase, pc);
    PutStays(sh, past, th, th.pc.e, th.pc.path);
    PutThread(sh, past + [Quiet(sh)], t, th, pc);
    Stay(sh, past, t, th, phase, pc);
  }

  /** compare-and-swap from nil through an entry of the map inserts the key. */
  lemma PutWrites(sh: Shared, past: seq<Moment>, t: Tid, th: Thread, phase: Phase, c: Choice)
    requires Ready(sh, past, t, th, phase) && th.pc.PutCas? && Slot(sh, th.pc.e) == Nil
    ensures MoveOk(sh, past, t, th, phase, PutMove(sh, th.pc, c))
  {
    hide SharedOk, Guarantee, LockGuarantee, Abs, SeenAt, Settled, MoveOk;
    var answer := Actual(Some(th.pc.box.value), false);
    WriteValue(sh, phase, th.pc.e, To(th.pc.box));
    Write(sh, past, t, th, phase, th.pc.e, To(th.pc.box), AfterPut(th.pc.path, answer), answer);
  }

  lemma PutStep(sh: Shared, past: seq<Moment>, t: Tid, th: Thread, phase: Phase, c: Choice)
    requires Ready(sh, past, t, th, phase) && IsPut(th.pc)
    ensures MoveOk(sh, past, t, th, phase, PutMove(sh, th.pc, c))
  {
    hide SharedOk, Guarantee, LockGuarantee, Abs, HoldRead, FastHold, MoveOk;
    if th.pc.PutCas? && Slot(sh, th.pc.e) == Nil {
      PutWrites(sh, past, t, th, phase, c);
    } else {
      PutReads(sh, past, t, th, phase, PutMove(sh, th.pc, c).pc);
    }
  }

  // ---------------------------------------------------------------- making and filling dirty

  lemma NewDirtyRead(sh: Shared, m: TableId)
    requires SharedOk(sh, Stable) && m !in sh.tables
    ensures ReadTable(sh.(dirty := Some(m), tables := sh.tables[m := map[]])) == ReadTable(sh)
  {
  }

  lemma DirtyInitStep(sh: Shared, past: seq<Moment>, t: Tid, th: Thread, phase: Phase, c: Choice)
    requires Ready(sh, past, t, th, phase) && th.pc.DirtyInit?
    ensures MoveOk(sh, past, t, th, phase, FillMove(sh, th.op, th.pc, c))
  {
    hide Guarantee, LockGuarantee, Abs, FastOk, TailOk, Typed, PublishedOk, DirtyOk, Covers;
    assert sh.dirty.None?;
    if c.serial in sh.tables {
      Stay(sh, past, t, th, phase, th.pc);
    } else {
      NewDirty(sh, c.serial);
      var sh' := sh.(dirty := Some(c.serial), tables := sh.tables[c.serial := map[]]);
      assert ReadTable(sh') == ReadTable(sh) by { NewDirtyRead(sh, c.serial); }
      hide SharedOk;
    }
  }

  lemma ExpungeStep(sh: Shared, past: seq<Moment>, t: Tid, th: Thread, phase: Phase, c: Choice)
    requires Ready(sh, past, t, th, phase) && th.pc.Expunge?
    ensures MoveOk(sh, past, t, th, phase, FillMove(sh, th.op, th.pc, c))
  {
    hide SharedOk, Guarantee, LockGuarantee, Abs, FastOk, TailOk, MoveOk;
    Stay(sh, past, t, th, phase, FillMove(sh, th.op, th.pc, c).pc);
  }

  /** An entry that is already expunged is left out of dirty. */
  lemma SkipExpunged(sh: Shared, todo: set<Key>, k: Key)
    requires SharedOk(sh, Filling(todo)) && k in ReadTable(sh) && Slot(sh, ReadTable(sh)[k]) == Pointer.Expunged
    ensures SharedOk(sh, Filling(todo - {k}))
  {
  }

  lemma ExpungeLoadStep(sh: Shared, past: seq<Moment>, t: Tid, th: Thread, phase: Phase, c: Choice)
    requires Ready(sh, past, t, th, phase) && th.pc.ExpungeLoad?
    ensures MoveOk(sh, past, t, th, phase, FillMove(sh, th.op, th.pc, c))
  {
    hide Guarantee, LockGuarantee, Abs, FastOk, TailOk, SharedOk;
    var k := th.pc.k;
    var e := ReadTable(sh)[k];
    if Slot(sh, e).To? {
      PutDirty(sh, phase, k, Filling(th.pc.todo - {k}));
      PutKeepsRead(sh, phase, k, e);
    } else if Slot(sh, e) == Nil {
      Stay(sh, past, t, th, phase, ExpungeCas(th.pc.snap, th.pc.src, th.pc.todo, k));
    } else {
      SkipExpunged(sh, th.pc.todo, k);
      NoChange(sh);
    }
  }

  lemma ExpungeCasStep(sh: Shared, past: seq<Moment>, t: Tid, th: Thread, phase: Phase, c: Choice)
    requires Ready(sh, past, t, th, phase) && th.pc.ExpungeCas?
    ensures MoveOk(sh, past, t, th, phase, FillMove(sh, th.op, th.pc, c))
  {
    hide Guarantee, LockGuarantee, Abs, FastOk, TailOk, SharedOk;
    var k := th.pc.k;
    if Slot(sh, ReadTable(sh)[k]) == Nil {
      MarkExpunged(sh, th.pc.todo, k);
    } else {
      Stay(sh, past, t, th, phase, ExpungeLoad(th.pc.snap, th.pc.src, th.pc.todo, k));
    }
  }

  lemma MarkAmendedStep(sh: Shared, past: seq<Moment>, t: Tid, th: Thread, phase: Phase, c: Choice)
    requires Ready(sh, past, t, th, phase) && th.pc.MarkAmended?
    ensures MoveOk(sh, past, t, th, phase, FillMove(sh, th.op, th.pc, c))
  {
    hide SharedOk, Guarantee, LockGuarantee, Abs, FastOk, TailOk;
    Amend(sh);
  }

  lemma CallFnStep(sh: Shared, past: seq<Moment>, t: Tid, th: Thread, phase: Phase, c: Choice)
    requires Ready(sh, past, t, th, phase) && th.pc.CallFn?
    ensures MoveOk(sh, past, t, th, phase, FillMove(sh, th.op, th.pc, c))
  {
    hide SharedOk, Guarantee, LockGuarantee, Abs, FastOk, TailOk, MoveOk;
    Stay(sh, past, t, th, phase, InsertNew(c.box));
  }

  lemma InsertNewStep(sh: Shared, past: seq<Moment>, t: Tid, th: Thread, phase: Phase, c: Choice)
    requires Ready(sh, past, t, th, phase) && th.pc.InsertNew?
    ensures MoveOk(sh, past, t, th, phase, FillMove(sh, th.op, th.pc, c))
  {
    hide Guarantee, LockGuarantee, Abs, FastOk, Settled, Typed, PublishedOk, DirtyOk, Covers;
    var box := th.pc.box;
    var e := EntryId(th.op.key, c.serial);
    assert sh.dirty.Some?;
    hide SharedOk;
    if e in sh.heap {
      Stay(sh, past, t, th, phase, th.pc);
    } else {
      InsertDirty(sh, e, box);
      hide Linked, HoldRead, FastHold, DeleteOk, IterOk;
      var answer := if th.op.Store? then Done else Actual(Some(box.value), false);
      var sh' := SetDirty(SetSlot(sh, e, To(box)), DirtyTable(sh)[e.key := e]);
      var m := Moment(Abs(sh'), Some(Act(t, th.start, th.op, answer)));
      SettleEffect(past, m, t, th.op, th.start, answer);
      Answered(sh', past + [m], t, th.(pc := Unlock(Respond(answer)), effect := Some(|past|)), answer);
      hide ThreadOk;
      assert FillMove(sh, th.op, th.pc, c) == Move(sh', Unlock(Respond(answer)), Some(answer));
      assert Applies(th.op, Abs(sh), answer, Abs(sh'));
    }
  }

  // ---------------------------------------------------------------- Range

  lemma IterEntry(sh: Shared, past: seq<Moment>, th: Thread, phase: Phase, k: Key)
    requires SharedOk(sh, phase) && th.pc.RangeIter? && k in th.pc.todo
    requires IterOk(sh, past, th.start, th.pc.m, th.pc.todo, th.pc.visited)
    ensures var m := TableOf(sh, th.pc.m);
      && k in m && m[k].key == k && m[k] in sh.heap
      && (var v := ValueOf(Slot(sh, m[k])); SeenAt(past, th.start, k, v))
  {
    hide PublishedOk, DirtyOk, Covers, Flag, SeenAt, Abs;
    var e := TableOf(sh, th.pc.m)[k];
    assert TableTyped(sh.heap, sh.tables[th.pc.m]) && HoldRead(sh, past, th.start, e) && e.key == k;
  }

  lemma RangeIterThread(sh: Shared, past: seq<Moment>, t: Tid, th: Thread, phase: Phase, c: Choice)
    requires SharedOk(sh, phase) && th.pc.RangeIter? && th.op == Range && th.effect.None?
    requires IterOk(sh, past, th.start, th.pc.m, th.pc.todo, th.pc.visited)
    ensures TailOk(sh, past, t, th.(pc := RangeIterMove(sh, th.pc, c).pc), RangeIterMove(sh, th.pc, c).pc)
  {
    hide SharedOk, SeenAt, Abs, HoldRead;
    if c.key in th.pc.todo {
      IterEntry(sh, past, th, phase, c.key);
    }
  }

  lemma RangeIterStep(sh: Shared, past: seq<Moment>, t: Tid, th: Thread, phase: Phase, c: Choice)
    requires Ready(sh, past, t, th, phase) && th.pc.RangeIter?
    ensures MoveOk(sh, past, t, th, phase, RangeIterMove(sh, th.pc, c))
  {
    hide SharedOk, Guarantee, LockGuarantee, Abs, FastOk, LockedOk, HoldRead, SeenAt, MoveOk;
    NoChange(sh);
    IterStays(sh, sh, None, past, Quiet(sh), th.start, th.pc.m, th.pc.todo, th.pc.visited);
    RangeIterThread(sh, past + [Quiet(sh)], t, th, phase, c);
    Stay(sh, past, t, th, phase, RangeIterMove(sh, th.pc, c).pc);
  }
}
