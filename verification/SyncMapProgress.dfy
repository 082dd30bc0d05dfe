/**
 No call of the concurrent map is ever stuck (pkg/sync/map.go): a thread that runs alone, with the lock free or
 its own, ends its call; and from every state that a schedule leads to every call can be ended.
 */
module SyncMapProgress {
  import opened Options
  import opened SyncMapMachine
  import opened SyncMapInvariant
  import opened SyncMapEffects
  import opened SyncMapSteps
  import opened SyncMapTheorems

  // ---------------------------------------------------------------- how far a thread has to go

  /** At most so many steps are left after the lock is let go, and before. */
  function Tail(pc: Pc): nat {
    match pc
    case Respond(_) => 1
    case LoadSlot(_) => 2
    case RangeIter(_, todo, _) => |todo| + 2
    case DeleteLoad(_, _) => 3
    case DeleteCas(_, _, _) => 4
    case Unlock(next) => Tail(next) + 1
    case Retire(next) => Tail(next) + 2
    case Publish(next) => Tail(next) + 3
    case Miss(next) => Tail(next) + 4
    case _ => 0
  }

  function Slow(sh: Shared): nat {
    3 * |ReadTable(sh)| + |DirtyTable(sh)| + 20
  }

  function Put(path: Path): nat {
    match path
    case Fast => 1
    case LockedRead => 2
    case LockedDirty => 5
  }

  predicate Retries(sh: Shared, e: EntryId, path: Path) {
    path.Fast? && Slot(sh, e) == Pointer.Expunged
  }

  function PutRank(sh: Shared, pc: Pc): nat
    requires IsPut(pc)
  {
    if Retries(sh, pc.e, pc.path) then
      Slow(sh) + (match pc case PutLoad(_, _) => 3 case PutCall(_, _) => 5 case PutCas(_, _, _) => 4 case _ => 3)
    else
      Put(pc.path) +
        match pc
        case PutLoad(_, _) => 3
        case PutCall(e, _) => if Slot(sh, e) == Nil then 2 else 4
        case PutCas(e, _, _) => if Slot(sh, e) == Nil then 1 else 3
        case _ => 2
  }

  function FillRank(sh: Shared, pc: Pc): nat {
    match pc
    case DirtyInit(_) => 3 * |ReadTable(sh)| + 7
    case Expunge(_, _, todo) => 3 * |todo| + 6
    case ExpungeLoad(_, _, todo, _) => 3 * |todo| + 5
    case ExpungeCas(_, src, todo, k) =>
      3 * |todo| + if k in TableOf(sh, src) && Slot(sh, TableOf(sh, src)[k]) != Nil then 6 else 4
    case MarkAmended(_) => 5
    case CallFn => 4
    case InsertNew(_) => 3
    case _ => 0
  }

  function LookupRank(sh: Shared, pc: Pc): nat {
    match pc
    case FastRead => Slow(sh) + |ReadTable(sh)| + 7
    case FastLookup(snap) => Slow(sh) + |TableOf(sh, snap.m)| + 6
    case Acquire => Slow(sh) + 2
    case SlowRead => Slow(sh) + 1
    case _ => Slow(sh)
  }

  function StoreRank(sh: Shared, pc: Pc): nat {
    match pc
    case StoreLoad(e) => if Slot(sh, e) == Pointer.Expunged then Slow(sh) + 3 else 3
    case StoreCas(e, p) =>
      if Slot(sh, e) == p then 2 else if Slot(sh, e) == Pointer.Expunged then Slow(sh) + 4 else 4
    case Unexpunge(_) => 8
    case DirtyPut(_) => 7
    case _ => 3
  }

  function TailRank(sh: Shared, pc: Pc): nat {
    if pc.DeleteCas? && Slot(sh, pc.e) == To(pc.seen) then 2 else Tail(pc)
  }

  predicate IsLookup(pc: Pc) { pc.FastRead? || pc.FastLookup? || pc.Acquire? || pc.SlowRead? || pc.SlowLookup? }

  predicate IsStore(pc: Pc) { pc.StoreLoad? || pc.StoreCas? || pc.Unexpunge? || pc.DirtyPut? || pc.StoreLocked? }

  /** A bound on the steps that a thread has left if it runs alone. */
  function Rank(sh: Shared, pc: Pc): nat {
    if IsLookup(pc) then LookupRank(sh, pc)
    else if IsStore(pc) then StoreRank(sh, pc)
    else if IsPut(pc) then PutRank(sh, pc)
    else if IsTail(pc) || IsLeaving(pc) then TailRank(sh, pc)
    else FillRank(sh, pc)
  }

  /** What the schedule decides is of use: an iteration comes to a key that is left, an allocation to a new address. */
  predicate Helps(sh: Shared, th: Thread, c: Choice) {
    && (th.pc.Expunge? && th.pc.todo != {} ==> c.key in th.pc.todo)
    && (th.pc.RangeIter? && th.pc.todo != {} ==> c.key in th.pc.todo)
    && c.serial !in sh.tables
    && (!th.op.Range? ==> EntryId(th.op.key, c.serial) !in sh.heap)
  }

  lemma FastFalls(sh: Shared, op: Op, snap: ReadOnly)
    ensures var move := FastLookupMove(sh, op, snap); Rank(move.sh, move.pc) < Rank(sh, FastLookup(snap))
  {
    hide FillRank, ReadTable, DirtyTable;
    assert |TableOf(sh, snap.m).Keys| == |TableOf(sh, snap.m)|;
  }

  lemma LookupFalls(sh: Shared, t: Tid, op: Op, pc: Pc)
    requires pc.FastRead? || (pc.Acquire? && sh.mu.None?) || pc.SlowRead?
    ensures var move := LookupMove(sh, t, op, pc); Rank(move.sh, move.pc) < Rank(sh, pc)
  {
    hide FillRank, PutRank, StoreRank, TailRank, FastLookupMove, SlowLookupMove;
  }

  lemma SlowLeaves(sh: Shared, op: Op)
    requires op.Load? || op.LoadAndDelete? || op.Range?
    ensures var move := SlowLookupMove(sh, op, sh.read);
      IsLeaving(move.pc) && Rank(move.sh, move.pc) < Slow(sh)
  {
    hide LookupRank, StoreRank, FillRank, PutRank;
    var pc := SlowLookupMove(sh, op, sh.read).pc;
    assert Tail(pc.next) <= |ReadTable(sh)| + |DirtyTable(sh)| + 3;
  }

  lemma SlowStore(sh: Shared, op: Op)
    requires IsStoring(op)
    ensures var move := SlowLookupMove(sh, op, sh.read); Rank(move.sh, move.pc) < Slow(sh)
  {
    hide LookupRank, TailRank, Tail;
  }

  lemma SlowFalls(sh: Shared, t: Tid, op: Op, snap: ReadOnly)
    requires snap == sh.read
    ensures var move := LookupMove(sh, t, op, SlowLookup(snap)); Rank(move.sh, move.pc) < Rank(sh, SlowLookup(snap))
  {
    hide Slow, SlowLookupMove;
    if IsStoring(op) {
      SlowStore(sh, op);
    } else {
      SlowLeaves(sh, op);
    }
  }

  lemma TailIs(sh: Shared, pc: Pc)
    requires IsTail(pc) || IsLeaving(pc)
    ensures Rank(sh, pc) <= Tail(pc)
  {
    hide LookupRank, StoreRank, FillRank, PutRank;
  }

  lemma LeaveFalls(sh: Shared, pc: Pc)
    requires IsLeaving(pc) && IsTail(pc.next)
    ensures var move := LeaveMove(sh, pc); Rank(move.sh, move.pc) < Rank(sh, pc)
  {
    TailIs(LeaveMove(sh, pc).sh, pc.next);
  }

  lemma DeleteFalls(sh: Shared, pc: Pc)
    requires pc.LoadSlot? || pc.DeleteLoad? || pc.DeleteCas?
    ensures var move := DeleteMove(sh, pc); Rank(move.sh, move.pc) < Rank(sh, pc)
  {
  }

  lemma TryFalls(sh: Shared, op: Op, pc: Pc)
    requires op.Store? && (pc.StoreLoad? || pc.StoreCas?)
    requires pc.StoreCas? ==> pc.p != Pointer.Expunged
    ensures var move := StoreMove(sh, op, pc); Rank(move.sh, move.pc) < Rank(sh, pc)
  {
    hide Slow, PutRank, FillRank;
  }

  lemma UnexpungeFalls(sh: Shared, op: Op, pc: Pc)
    requires pc.Unexpunge? || pc.DirtyPut?
    ensures var move := StoreMove(sh, op, pc); Rank(move.sh, move.pc) < Rank(sh, pc)
  {
    hide Slow;
  }

  lemma LockedFalls(sh: Shared, op: Op, pc: Pc)
    requires op.Store? && pc.StoreLocked?
    ensures var move := StoreMove(sh, op, pc); Rank(move.sh, move.pc) < Rank(sh, pc)
  {
    hide Slow, PutRank, FillRank;
    assert Tail(Respond(Done)) == 1;
  }

  lemma AfterPutRank(sh: Shared, path: Path, answer: Answer)
    ensures Rank(sh, AfterPut(path, answer)) == Put(path)
  {
    assert Tail(Respond(answer)) == 1;
  }

  lemma PutFalls(sh: Shared, pc: Pc, c: Choice)
    requires IsPut(pc)
    ensures var move := PutMove(sh, pc, c); Rank(move.sh, move.pc) < Rank(sh, pc)
  {
    var move := PutMove(sh, pc, c);
    if !IsPut(move.pc) && !move.pc.Acquire? {
      var answer :| move.pc == AfterPut(pc.path, answer);
      AfterPutRank(move.sh, pc.path, answer);
      hide Slow;
    }
  }

  lemma TakeOne(todo: set<Key>, k: Key)
    requires k in todo
    ensures |todo - {k}| + 1 == |todo|
  {
    assert todo == todo - {k} + {k};
  }

  lemma LoopFalls(sh: Shared, pc: Pc, c: Choice)
    requires pc.RangeIter? && (pc.todo != {} ==> c.key in pc.todo)
    ensures var move := RangeIterMove(sh, pc, c); Rank(move.sh, move.pc) < Rank(sh, pc)
  {
    if pc.todo != {} {
      TakeOne(pc.todo, c.key);
    }
  }

  lemma InitFalls(sh: Shared, op: Op, pc: Pc, c: Choice)
    requires pc.DirtyInit? && c.serial !in sh.tables
    ensures var move := FillMove(sh, op, pc, c); Rank(move.sh, move.pc) < Rank(sh, pc)
  {
    assert |ReadTable(sh).Keys| == |ReadTable(sh)|;
    hide Slow, PutRank;
  }

  lemma CopyRank(sh: Shared, pc: Pc)
    requires pc.Expunge? || pc.ExpungeLoad? || pc.ExpungeCas? || pc.MarkAmended?
    ensures Rank(sh, pc) == FillRank(sh, pc)
  {
    hide FillRank, PutRank, Slow, Tail;
  }

  lemma NextFalls(sh: Shared, op: Op, pc: Pc, c: Choice)
    requires pc.Expunge? && (pc.todo != {} ==> c.key in pc.todo)
    ensures var move := FillMove(sh, op, pc, c); Rank(move.sh, move.pc) < Rank(sh, pc)
  {
    var move := FillMove(sh, op, pc, c);
    CopyRank(sh, pc);
    CopyRank(move.sh, move.pc);
    hide Rank;
  }

  lemma ExpungeLoadFalls(sh: Shared, pc: Pc)
    requires pc.ExpungeLoad? && pc.k in pc.todo
    ensures var move := ExpungeLoadMove(sh, pc); Rank(move.sh, move.pc) < Rank(sh, pc)
  {
    var move := ExpungeLoadMove(sh, pc);
    TakeOne(pc.todo, pc.k);
    CopyRank(sh, pc);
    CopyRank(move.sh, move.pc);
    hide Rank, SetDirty, DirtyTable;
  }

  lemma ExpungeCasFalls(sh: Shared, pc: Pc)
    requires pc.ExpungeCas? && pc.k in pc.todo
    ensures var move := ExpungeCasMove(sh, pc); Rank(move.sh, move.pc) < Rank(sh, pc)
  {
    var move := ExpungeCasMove(sh, pc);
    TakeOne(pc.todo, pc.k);
    CopyRank(sh, pc);
    CopyRank(move.sh, move.pc);
    hide Rank, SetSlot;
  }

  lemma AmendFalls(sh: Shared, op: Op, pc: Pc, c: Choice)
    requires pc.MarkAmended? || pc.CallFn?
    ensures var move := FillMove(sh, op, pc, c); Rank(move.sh, move.pc) < Rank(sh, pc)
  {
    hide LookupRank, StoreRank, PutRank, TailRank;
  }

  lemma InsertFalls(sh: Shared, op: Op, box: Box, c: Choice)
    requires !op.Range? ==> EntryId(op.key, c.serial) !in sh.heap
    ensures var move := InsertNewMove(sh, op, box, c); Rank(move.sh, move.pc) < Rank(sh, InsertNew(box))
  {
    hide LookupRank, StoreRank, PutRank, SetSlot, SetDirty, DirtyTable;
    var move := InsertNewMove(sh, op, box, c);
    assert move.pc.Unlock? ==> Tail(move.pc.next) == 1;
  }

  lemma FillFalls(sh: Shared, op: Op, pc: Pc, c: Choice)
    requires || pc.DirtyInit? || pc.Expunge? || pc.ExpungeLoad? || pc.ExpungeCas? || pc.MarkAmended? || pc.CallFn?
             || pc.InsertNew?
    requires pc.Expunge? && pc.todo != {} ==> c.key in pc.todo
    requires pc.ExpungeLoad? || pc.ExpungeCas? ==> pc.k in pc.todo
    requires c.serial !in sh.tables && (!op.Range? ==> EntryId(op.key, c.serial) !in sh.heap)
    ensures var move := FillMove(sh, op, pc, c); Rank(move.sh, move.pc) < Rank(sh, pc)
  {
    hide Rank, DirtyInitMove, ExpungeLoadMove, ExpungeCasMove, InsertNewMove, ReadTable, DirtyTable, FirstStore;
    if pc.DirtyInit? {
      InitFalls(sh, op, pc, c);
    } else if pc.Expunge? {
      NextFalls(sh, op, pc, c);
    } else if pc.ExpungeLoad? {
      ExpungeLoadFalls(sh, pc);
    } else if pc.ExpungeCas? {
      ExpungeCasFalls(sh, pc);
    } else if pc.InsertNew? {
      InsertFalls(sh, op, pc.box, c);
    } else {
      AmendFalls(sh, op, pc, c);
    }
  }

  // ---------------------------------------------------------------- one step alone

  lemma KnownPoint(sh: Shared, past: seq<Moment>, t: Tid, th: Thread, phase: Phase)
    requires Ready(sh, past, t, th, phase)
    ensures IsLeaving(th.pc) ==> IsTail(th.pc.next)
    ensures th.pc.SlowLookup? ==> th.pc.snap == sh.read
    ensures th.pc.StoreLoad? || th.pc.StoreCas? || th.pc.StoreLocked? ==> th.op.Store?
    ensures th.pc.StoreCas? ==> th.pc.p != Pointer.Expunged
    ensures th.pc.ExpungeLoad? || th.pc.ExpungeCas? ==> th.pc.k in th.pc.todo
    ensures th.pc.Acquire? ==> sh.mu != Some(t)
    ensures !th.pc.Panicked?
  {
    hide SharedOk, Abs, HoldRead, FastHold, SnapOk, IterOk, Settled, Linked, InRead, KeyMissing;
  }

  /** Every step of a thread that does not have to wait for the lock brings it nearer to the end of its call. */
  lemma RankFalls(sh: Shared, past: seq<Moment>, t: Tid, th: Thread, phase: Phase, c: Choice)
    requires Ready(sh, past, t, th, phase) && !th.pc.Idle? && !th.pc.Respond?
    requires Helps(sh, th, c) && (th.pc.Acquire? ==> sh.mu.None?)
    ensures var move := Action(sh, t, th.op, th.pc, c); Rank(move.sh, move.pc) < Rank(sh, th.pc)
  {
    KnownPoint(sh, past, t, th, phase);
    hide Ready, Rank, FastLookupMove, LeaveMove, DeleteMove, StoreMove, PutMove, FillMove, RangeIterMove;
    var pc := th.pc;
    if pc.SlowLookup? {
      SlowFalls(sh, t, th.op, pc.snap);
    } else if pc.FastLookup? {
      FastFalls(sh, th.op, pc.snap);
    } else if IsLookup(pc) {
      LookupFalls(sh, t, th.op, pc);
    } else if IsLeaving(pc) {
      LeaveFalls(sh, pc);
    } else if pc.LoadSlot? || pc.DeleteLoad? || pc.DeleteCas? {
      DeleteFalls(sh, pc);
    } else if pc.StoreLoad? || pc.StoreCas? {
      TryFalls(sh, th.op, pc);
    } else if pc.Unexpunge? || pc.DirtyPut? {
      UnexpungeFalls(sh, th.op, pc);
    } else if pc.StoreLocked? {
      LockedFalls(sh, th.op, pc);
    } else if IsPut(pc) {
      PutFalls(sh, pc, c);
    } else if pc.RangeIter? {
      LoopFalls(sh, pc, c);
    } else if pc.DirtyInit? {
      InitFalls(sh, th.op, pc, c);
    } else {
      FillFalls(sh, th.op, pc, c);
    }
  }

  // ---------------------------------------------------------------- a call alone

  /** The lock is free, or the thread has it; or it does not need it any more, being within few steps of its end. */
  predicate Unhindered(sh: Shared, t: Tid, pc: Pc) {
    sh.mu.None? || sh.mu == Some(t) || (!InLock(pc) && Rank(sh, pc) < 20)
  }

  /** Who has the lock once t has let go of it. */
  function Without(mu: Option<Tid>, t: Tid): Option<Tid> {
    if mu == Some(t) then None else mu
  }

  lemma NoWait(sh: Shared, past: seq<Moment>, t: Tid, th: Thread, phase: Phase)
    requires Ready(sh, past, t, th, phase) && Unhindered(sh, t, th.pc) && th.pc.Acquire?
    ensures sh.mu.None?
  {
    hide Ready;
    KnownPoint(sh, past, t, th, phase);
  }

  /** A step leaves the thread unhindered, and a call ends with its answer only. */
  lemma StaysUnhindered(sh: Shared, past: seq<Moment>, t: Tid, th: Thread, phase: Phase, c: Choice)
    requires Ready(sh, past, t, th, phase) && !th.pc.Idle? && !th.pc.Respond? && Unhindered(sh, t, th.pc)
    requires var move := Action(sh, t, th.op, th.pc, c); Rank(move.sh, move.pc) < Rank(sh, th.pc)
    ensures var move := Action(sh, t, th.op, th.pc, c);
      !move.pc.Idle? && Unhindered(move.sh, t, move.pc) && Without(move.sh.mu, t) == Without(sh.mu, t)
  {
    ActionOk(sh, past, t, th, phase, c);
    hide Ready, Action, SharedOk, Guarantee, LockGuarantee, EffectOk, ThreadOk, Mine, Abs, Rank, InLock;
  }

  /** All turns are those of t, and while its call is under way they help it on. */
  ghost predicate Helped(schedule: seq<Turn>, t: Tid, more: seq<Turn>) {
    forall i :: 0 <= i < |more| ==>
      && more[i].thread == t
      && var s := Run(schedule + more[..i]);
         Active(s, t) ==> Helps(s.sh, s.threads[t], more[i].choice)
  }

  lemma HelpedOn(schedule: seq<Turn>, t: Tid, more: seq<Turn>)
    requires Helped(schedule, t, more) && more != []
    ensures Helped(schedule + [more[0]], t, more[1..])
  {
    hide Run, Helps;
    forall i | 0 <= i < |more[1..]|
      ensures more[1..][i].thread == t
      ensures var s := Run(schedule + [more[0]] + more[1..][..i]);
        Active(s, t) ==> Helps(s.sh, s.threads[t], more[1..][i].choice)
    {
      assert schedule + [more[0]] + more[1..][..i] == schedule + more[..i + 1];
      assert more[i + 1].thread == t;
    }
  }

  /** The others have not moved. */
  ghost predicate OthersRest(s: State, t: Tid, s': State) {
    forall u :: u != t ==> (u in s'.threads <==> u in s.threads) && (u in s.threads ==> s'.threads[u] == s.threads[u])
  }

  /** The call of t is over: it has left its answer, and not the lock, behind, and no other thread has moved. */
  ghost predicate Over(s: State, t: Tid, s': State)
    requires t in s.threads
  {
    && t in s'.threads && s'.threads[t].pc.Idle? && s'.sh.mu == Without(s.sh.mu, t)
    && |s'.done| == |s.done| + 1 && s'.done[..|s.done|] == s.done
    && (var call := s'.done[|s.done|];
        call.thread == t && call.op == s.threads[t].op && call.start == s.threads[t].start)
    && OthersRest(s, t, s')
  }

  lemma Unlocked(s: State, t: Tid)
    requires Invariant(s) && t in s.threads && !InLock(s.threads[t].pc)
    ensures s.sh.mu != Some(t)
  {
    hide SharedOk, ThreadsOk, DoneOk, HistoryOk, OneDeleter, Abs;
  }

  lemma LastStep(schedule: seq<Turn>, t: Tid, c: Choice)
    requires Active(Run(schedule), t) && Run(schedule).threads[t].pc.Respond?
    ensures Over(Run(schedule), t, Run(schedule + [Turn(t, c)]))
  {
    hide Invariant, Abs, Action;
    Reachable(schedule);
    Unlocked(Run(schedule), t);
    assert (schedule + [Turn(t, c)])[..|schedule|] == schedule;
  }

  ghost predicate Goes(schedule: seq<Turn>, t: Tid) {
    var s := Run(schedule);
    Active(s, t) && Unhindered(s.sh, t, s.threads[t].pc)
  }

  /** One step: none of the others moves, and there is less left to do. */
  lemma OneStep(schedule: seq<Turn>, t: Tid, c: Choice)
    requires Goes(schedule, t) && !Run(schedule).threads[t].pc.Respond?
    requires Helps(Run(schedule).sh, Run(schedule).threads[t], c)
    ensures var s, s' := Run(schedule), Run(schedule + [Turn(t, c)]);
      && Goes(schedule + [Turn(t, c)], t) && s'.done == s.done && OthersRest(s, t, s')
      && s'.threads[t].op == s.threads[t].op && s'.threads[t].start == s.threads[t].start
      && Without(s'.sh.mu, t) == Without(s.sh.mu, t)
      && Rank(s'.sh, s'.threads[t].pc) < Rank(s.sh, s.threads[t].pc)
  {
    hide Invariant, Ready, Abs, Action, Rank, Helps, Unhindered;
    Reachable(schedule);
    var s := Run(schedule);
    var th, phase := s.threads[t], LockPhase(s.sh, s.threads);
    ThreadReady(s, t);
    if th.pc.Acquire? {
      NoWait(s.sh, s.past, t, th, phase);
    }
    RankFalls(s.sh, s.past, t, th, phase, c);
    StaysUnhindered(s.sh, s.past, t, th, phase, c);
    assert (schedule + [Turn(t, c)])[..|schedule|] == schedule;
  }

  lemma {:induction false} Above(numbers: set<nat>) returns (n: nat)
    ensures forall i :: i in numbers ==> i < n
  {
    n := 0;
    if numbers != {} {
      var i :| i in numbers;
      var m := Above(numbers - {i});
      n := if i < m then m else i + 1;
      assert forall j :: j in numbers ==> j == i || j in numbers - {i};
    }
  }

  /** There is a choice that helps, whatever the thread is about to do. */
  lemma HelpExists(sh: Shared, th: Thread, any: Choice) returns (c: Choice)
    ensures Helps(sh, th, c)
  {
    var n := Above(sh.tables.Keys + set e | e in sh.heap :: e.serial);
    c := any.(serial := n);
    if th.pc.Expunge? && th.pc.todo != {} {
      var k :| k in th.pc.todo;
      c := c.(key := k);
    } else if th.pc.RangeIter? && th.pc.todo != {} {
      var k :| k in th.pc.todo;
      c := c.(key := k);
    }
  }

  lemma StartedBefore(schedule: seq<Turn>, t: Tid)
    requires Active(Run(schedule), t)
    ensures schedule != []
  {
  }

  /** As long as a call is under way there is something left to do. */
  lemma RankPositive(schedule: seq<Turn>, t: Tid)
    requires Goes(schedule, t)
    ensures Rank(Run(schedule).sh, Run(schedule).threads[t].pc) > 0
  {
    hide Run;
    StartedBefore(schedule, t);
    if !Run(schedule).threads[t].pc.Respond? {
      hide Rank, Helps;
      var c := HelpExists(Run(schedule).sh, Run(schedule).threads[t], schedule[0].choice);
      OneStep(schedule, t, c);
    }
  }

  lemma OverBefore(s: State, s1: State, t: Tid, s': State)
    requires t in s.threads && t in s1.threads && OthersRest(s, t, s1) && s1.done == s.done
    requires Without(s1.sh.mu, t) == Without(s.sh.mu, t)
    requires s1.threads[t].op == s.threads[t].op && s1.threads[t].start == s.threads[t].start && Over(s1, t, s')
    ensures Over(s, t, s')
  {
  }

  /** A thread that does not have to wait for the lock ends its call by turns of its own, wherever it stands: no loop
      of the map goes on by itself for ever. */
  lemma {:induction false} EndsAlone(schedule: seq<Turn>, t: Tid, more: seq<Turn>) returns (n: nat)
    requires Goes(schedule, t) && Helped(schedule, t, more)
    requires |more| >= Rank(Run(schedule).sh, Run(schedule).threads[t].pc)
    ensures n <= Rank(Run(schedule).sh, Run(schedule).threads[t].pc)
    ensures Over(Run(schedule), t, Run(schedule + more[..n]))
    decreases |more|
  {
    hide Run, Rank, Helps, Over, OthersRest, Unhindered, Without;
    RankPositive(schedule, t);
    assert schedule + more[..0] == schedule;
    var c := more[0].choice;
    assert more[0] == Turn(t, c);
    if Run(schedule).threads[t].pc.Respond? {
      LastStep(schedule, t, c);
      n := 1;
      assert more[..1] == [Turn(t, c)];
    } else {
      OneStep(schedule, t, c);
      HelpedOn(schedule, t, more);
      var m := EndsAlone(schedule + [Turn(t, c)], t, more[1..]);
      n := m + 1;
      assert schedule + [Turn(t, c)] + more[1..][..m] == schedule + more[..n];
      OverBefore(Run(schedule), Run(schedule + [Turn(t, c)]), t, Run(schedule + more[..n]));
    }
  }

  /** And such turns there are, whatever state the schedule leads to. */
  lemma {:induction false} Finishes(schedule: seq<Turn>, t: Tid) returns (more: seq<Turn>)
    requires Goes(schedule, t)
    ensures forall i :: 0 <= i < |more| ==> more[i].thread == t
    ensures Over(Run(schedule), t, Run(schedule + more))
    decreases Rank(Run(schedule).sh, Run(schedule).threads[t].pc)
  {
    hide Run, Rank, Helps, Over, OthersRest, Unhindered, Without;
    StartedBefore(schedule, t);
    var c := HelpExists(Run(schedule).sh, Run(schedule).threads[t], schedule[0].choice);
    var turn := Turn(t, c);
    if Run(schedule).threads[t].pc.Respond? {
      LastStep(schedule, t, c);
      more := [turn];
    } else {
      OneStep(schedule, t, c);
      var rest := Finishes(schedule + [turn], t);
      more := [turn] + rest;
      assert schedule + [turn] + rest == schedule + more;
      OverBefore(Run(schedule), Run(schedule + [turn]), t, Run(schedule + more));
    }
  }

  /** The holder of the lock is in the middle of a call. */
  lemma HolderActive(s: State)
    requires Invariant(s) && s.sh.mu.Some?
    ensures Active(s, s.sh.mu.value)
  {
    hide SharedOk, ThreadsOk, DoneOk, HistoryOk, OneDeleter, Abs;
  }

  /** No call is ever stuck: whatever the schedule so far, each call under way can still be ended, by turns of its
      own thread after those of the one that holds the lock, if any does; no other call is needed for it. */
  lemma {:induction false} NeverStuck(schedule: seq<Turn>, t: Tid) returns (more: seq<Turn>)
    requires Active(Run(schedule), t)
    ensures forall i :: 0 <= i < |more| ==> more[i].thread == t || Run(schedule).sh.mu == Some(more[i].thread)
    ensures var s, s' := Run(schedule), Run(schedule + more);
      && !Active(s', t) && s'.sh.mu.None? && s.done <= s'.done && |s'.done| > |s.done|
      && (var call := s'.done[|s'.done| - 1];
          call.thread == t && call.op == s.threads[t].op && call.start == s.threads[t].start)
  {
    hide Run, Invariant, Rank;
    if Run(schedule).sh.mu.None? || Run(schedule).sh.mu == Some(t) {
      more := Finishes(schedule, t);
    } else {
      var u := Run(schedule).sh.mu.value;
      Reachable(schedule);
      HolderActive(Run(schedule));
      var first := Finishes(schedule, u);
      var second := Finishes(schedule + first, t);
      more := first + second;
      assert schedule + first + second == schedule + more;
    }
  }

  // ---------------------------------------------------------------- without the lock

  /** What was loaded of read is enough for the call: it has the key, with an entry to store to if the call stores, or
      it is said to have all keys there are. */
  predicate Enough(sh: Shared, op: Op, read: ReadOnly) {
    var table := TableOf(sh, read.m);
    match op
    case Load(k) => k in table || !read.amended
    case LoadAndDelete(k) => k in table || !read.amended
    case Store(k, _) => k in table && Slot(sh, table[k]) != Pointer.Expunged
    case LoadOrStore(k) => k in table && Slot(sh, table[k]) != Pointer.Expunged
    case Range => false
  }

  predicate FoundInRead(sh: Shared, th: Thread) { th.pc.FastLookup? && Enough(sh, th.op, th.pc.snap) }

  lemma FoundIsQuick(sh: Shared, t: Tid, th: Thread, c: Choice)
    requires FoundInRead(sh, th)
    ensures var move := Action(sh, t, th.op, th.pc, c);
      move.sh == sh && !InLock(move.pc) && !move.pc.Idle? && Rank(sh, move.pc) <= 4
  {
    hide Slow, FillRank, LookupRank;
  }

  lemma FirstOfFew(schedule: seq<Turn>, t: Tid, c: Choice)
    requires t in Run(schedule).threads && FoundInRead(Run(schedule).sh, Run(schedule).threads[t])
    ensures var s, s' := Run(schedule), Run(schedule + [Turn(t, c)]);
      && Goes(schedule + [Turn(t, c)], t) && s'.done == s.done && OthersRest(s, t, s')
      && s'.threads[t].op == s.threads[t].op && s'.threads[t].start == s.threads[t].start
      && s'.sh == s.sh && Rank(s'.sh, s'.threads[t].pc) <= 4
  {
    hide Abs, Action, Rank, InLock;
    FoundIsQuick(Run(schedule).sh, t, Run(schedule).threads[t], c);
    hide FoundInRead;
    assert (schedule + [Turn(t, c)])[..|schedule|] == schedule;
  }

  lemma OutsideLock(schedule: seq<Turn>, t: Tid)
    requires t in Run(schedule).threads && Run(schedule).threads[t].pc.FastLookup?
    ensures Run(schedule).sh.mu != Some(t)
  {
    hide Run, Invariant;
    Reachable(schedule);
    Unlocked(Run(schedule), t);
  }

  lemma OverLock(s: State, t: Tid, s': State)
    requires t in s.threads && Over(s, t, s') && s.sh.mu != Some(t)
    ensures s'.sh.mu == s.sh.mu
  {
  }

  /** A Load, Store, LoadOrStore or LoadAndDelete that has enough in read is done in five steps, without the lock, even
      while another thread holds it. */
  lemma LockFree(schedule: seq<Turn>, t: Tid, more: seq<Turn>) returns (n: nat)
    requires t in Run(schedule).threads && FoundInRead(Run(schedule).sh, Run(schedule).threads[t])
    requires Helped(schedule, t, more) && |more| >= 5
    ensures n <= 5 && Over(Run(schedule), t, Run(schedule + more[..n]))
    ensures Run(schedule + more[..n]).sh.mu == Run(schedule).sh.mu
  {
    hide Run, Rank, Helps, Over, OthersRest, Unhindered, Without;
    assert schedule + more[..0] == schedule;
    var c := more[0].choice;
    assert more[0] == Turn(t, c);
    FirstOfFew(schedule, t, c);
    HelpedOn(schedule, t, more);
    var m := EndsAlone(schedule + [Turn(t, c)], t, more[1..]);
    n := m + 1;
    assert schedule + [Turn(t, c)] + more[1..][..m] == schedule + more[..n];
    OverBefore(Run(schedule), Run(schedule + [Turn(t, c)]), t, Run(schedule + more[..n]));
    OutsideLock(schedule, t);
    OverLock(Run(schedule), t, Run(schedule + more[..n]));
  }

  predicate IsInRead(sh: Shared, th: Thread) { th.pc.FastRead? && Enough(sh, th.op, sh.read) }

  lemma LoadsRead(schedule: seq<Turn>, t: Tid, c: Choice)
    requires t in Run(schedule).threads && IsInRead(Run(schedule).sh, Run(schedule).threads[t])
    ensures var s, s' := Run(schedule), Run(schedule + [Turn(t, c)]);
      && t in s'.threads && FoundInRead(s'.sh, s'.threads[t])
      && s'.done == s.done && OthersRest(s, t, s') && s'.sh == s.sh
      && s'.threads[t].op == s.threads[t].op && s'.threads[t].start == s.threads[t].start
  {
    hide Abs;
    assert (schedule + [Turn(t, c)])[..|schedule|] == schedule;
  }

  /** So from its beginning such a call takes six steps: none of them waits for the lock or takes it. */
  lemma LockFreeWhole(schedule: seq<Turn>, t: Tid, more: seq<Turn>) returns (n: nat)
    requires t in Run(schedule).threads && IsInRead(Run(schedule).sh, Run(schedule).threads[t])
    requires Helped(schedule, t, more) && |more| >= 6
    ensures n <= 6 && Over(Run(schedule), t, Run(schedule + more[..n]))
    ensures Run(schedule + more[..n]).sh.mu == Run(schedule).sh.mu
  {
    hide Run, Helps, Over, OthersRest, Without, FoundInRead;
    assert schedule + more[..0] == schedule;
    var c := more[0].choice;
    assert more[0] == Turn(t, c);
    LoadsRead(schedule, t, c);
    HelpedOn(schedule, t, more);
    var m := LockFree(schedule + [Turn(t, c)], t, more[1..]);
    n := m + 1;
    assert schedule + [Turn(t, c)] + more[1..][..m] == schedule + more[..n];
    OverBefore(Run(schedule), Run(schedule + [Turn(t, c)]), t, Run(schedule + more[..n]));
  }
}
