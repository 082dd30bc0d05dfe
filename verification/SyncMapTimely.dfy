/**
 When dirty is promoted (pkg/sync/map.go:364-372), under every schedule: misses stay below the number of keys that
 dirty has, and without dirty there are none.
 */
module SyncMapTimely {
  import opened Options
  import opened SyncMapMachine
  import opened SyncMapInvariant
  import opened SyncMapSteps
  import opened SyncMapTheorems
  import opened SyncMapCost

  // ---------------------------------------------------------------- at each point of the lock holder

  /** Between calls. */
  predicate InTime(sh: Shared) {
    if sh.dirty.Some? then 0 <= sh.misses < |DirtyTable(sh)| else sh.misses == 0
  }

  /** A key was taken out of dirty, or the key that dirty is made for is not there yet. */
  predicate OneShort(pc: Pc) {
    pc.Miss? || pc.Expunge? || pc.ExpungeLoad? || pc.ExpungeCas? || pc.MarkAmended? || pc.CallFn? || pc.InsertNew?
  }

  predicate Timely(sh: Shared, pc: Pc) {
    if OneShort(pc) then sh.dirty.Some? && 0 <= sh.misses <= |DirtyTable(sh)|
    else pc.Publish? || pc.Retire? || InTime(sh)
  }

  /** What the step needs of the invariant. */
  predicate HolderKnows(sh: Shared, t: Tid, th: Thread) {
    && HolderOk(sh, t, th)
    && (th.pc.InsertNew? ==> !th.op.Range? && th.op.key !in DirtyTable(sh))
    && (th.pc.SlowLookup? && IsStoring(th.op) && sh.dirty == None ==> !sh.read.amended)
    && (IsPut(th.pc) && th.pc.path.LockedDirty? ==> sh.dirty.Some?)
  }

  // ---------------------------------------------------------------- one step

  predicate TimelyNext(sh: Shared, t: Tid, th: Thread, c: Choice) {
    var move := Action(sh, t, th.op, th.pc, c);
    if move.sh.mu == None then InTime(move.sh) else move.sh.mu == Some(t) && Timely(move.sh, move.pc)
  }

  lemma OneLess(table: Table, k: Key)
    requires k in table
    ensures |table - {k}| + 1 == |table|
  {
    assert (table - {k}).Keys == table.Keys - {k};
    TakeOne(table.Keys, k);
    assert |table.Keys| == |table| && |(table - {k}).Keys| == |table - {k}|;
  }

  lemma NoLess(table: Table, k: Key, e: EntryId)
    ensures |table[k := e]| == |table| + if k in table then 0 else 1
  {
    assert table[k := e].Keys == table.Keys + {k};
    assert |table.Keys| == |table| && |table[k := e].Keys| == |table[k := e]|;
  }

  /** A lookup with the lock only reads, but for the key that LoadAndDelete takes out of dirty. */
  lemma ReadTimely(sh: Shared, op: Op)
    requires InTime(sh) && !op.LoadAndDelete? && (IsStoring(op) && sh.dirty == None ==> !sh.read.amended)
    requires sh.read.amended ==> sh.dirty.Some?
    ensures var move := SlowLookupMove(sh, op, sh.read); move.sh == sh && Timely(sh, move.pc)
  {
    hide ReadTable, DirtyTable;
  }

  lemma TakeOutTimely(sh: Shared, op: Op)
    requires InTime(sh) && op.LoadAndDelete? && (sh.read.amended ==> sh.dirty.Some?)
    ensures var move := SlowLookupMove(sh, op, sh.read); move.sh.mu == sh.mu && Timely(move.sh, move.pc)
  {
    hide ReadTable;
    if op.key in DirtyTable(sh) {
      OneLess(DirtyTable(sh), op.key);
    }
  }

  lemma LookupTimely(sh: Shared, t: Tid, th: Thread, c: Choice)
    requires HolderKnows(sh, t, th) && (th.pc.SlowRead? || th.pc.SlowLookup?) && InTime(sh)
    ensures TimelyNext(sh, t, th, c)
  {
    if th.pc.SlowLookup? {
      hide InTime, Timely, SlowLookupMove;
      if th.op.LoadAndDelete? {
        TakeOutTimely(sh, th.op);
      } else {
        ReadTimely(sh, th.op);
      }
    } else {
      hide SlowLookupMove, DirtyTable;
    }
  }

  lemma LeaveTimely(sh: Shared, t: Tid, th: Thread, c: Choice)
    requires HolderKnows(sh, t, th) && IsLeaving(th.pc) && Timely(sh, th.pc)
    ensures TimelyNext(sh, t, th, c)
  {
    hide InLock;
  }

  lemma PutTimely(sh: Shared, t: Tid, th: Thread, c: Choice)
    requires HolderKnows(sh, t, th) && IsPut(th.pc) && InTime(sh)
    ensures TimelyNext(sh, t, th, c)
  {
    hide InLock;
    var move := PutMove(sh, th.pc, c);
    assert DirtyTable(move.sh) == DirtyTable(sh);
  }

  lemma WriteTimely(sh: Shared, t: Tid, th: Thread, c: Choice)
    requires HolderKnows(sh, t, th) && (th.pc.Unexpunge? || th.pc.DirtyPut? || th.pc.StoreLocked?) && InTime(sh)
    ensures TimelyNext(sh, t, th, c)
  {
    if th.pc.DirtyPut? {
      NoLess(DirtyTable(sh), th.pc.e.key, th.pc.e);
    }
  }

  lemma MakeTimely(sh: Shared, t: Tid, th: Thread, c: Choice)
    requires HolderKnows(sh, t, th) && Timely(sh, th.pc)
    requires th.pc.DirtyInit? || th.pc.Expunge? || th.pc.MarkAmended? || th.pc.CallFn?
    ensures TimelyNext(sh, t, th, c)
  {
    hide InLock, ReadTable;
  }

  lemma CopyTimely(sh: Shared, t: Tid, th: Thread, c: Choice)
    requires HolderKnows(sh, t, th) && Timely(sh, th.pc) && (th.pc.ExpungeLoad? || th.pc.ExpungeCas?)
    ensures TimelyNext(sh, t, th, c)
  {
    hide InLock;
    if th.pc.ExpungeLoad? && th.pc.k in TableOf(sh, th.pc.src) {
      NoLess(DirtyTable(sh), th.pc.k, TableOf(sh, th.pc.src)[th.pc.k]);
    }
  }

  lemma InsertTimely(sh: Shared, t: Tid, th: Thread, c: Choice)
    requires HolderKnows(sh, t, th) && Timely(sh, th.pc) && th.pc.InsertNew?
    ensures TimelyNext(sh, t, th, c)
  {
    hide InLock;
    NoLess(DirtyTable(sh), th.op.key, EntryId(th.op.key, c.serial));
  }

  lemma HolderTimely(sh: Shared, t: Tid, th: Thread, c: Choice)
    requires HolderKnows(sh, t, th) && Timely(sh, th.pc)
    ensures TimelyNext(sh, t, th, c)
  {
    hide TimelyNext, InTime;
    if th.pc.SlowRead? || th.pc.SlowLookup? {
      LookupTimely(sh, t, th, c);
    } else if IsLeaving(th.pc) {
      LeaveTimely(sh, t, th, c);
    } else if IsPut(th.pc) {
      PutTimely(sh, t, th, c);
    } else if th.pc.Unexpunge? || th.pc.DirtyPut? || th.pc.StoreLocked? {
      WriteTimely(sh, t, th, c);
    } else if th.pc.ExpungeLoad? || th.pc.ExpungeCas? {
      CopyTimely(sh, t, th, c);
    } else if th.pc.InsertNew? {
      InsertTimely(sh, t, th, c);
    } else {
      MakeTimely(sh, t, th, c);
    }
  }

  // ---------------------------------------------------------------- every schedule

  lemma ReadyKnows(sh: Shared, past: seq<Moment>, t: Tid, th: Thread, phase: Phase)
    requires Ready(sh, past, t, th, phase) && InLock(th.pc)
    ensures HolderKnows(sh, t, th)
  {
    ReadyHolder(sh, past, t, th, phase);
    hide Abs, Typed, PublishedOk, DirtyOk, Covers, NoneExpunged, TailOk, LeavingOk, FastOk, HolderOk, Linked;
  }

  lemma HolderIsKnown(s: State, t: Tid)
    requires Invariant(s) && t in s.threads && InLock(s.threads[t].pc)
    ensures HolderKnows(s.sh, t, s.threads[t])
  {
    hide Invariant, Ready, HolderKnows, InLock;
    ThreadReady(s, t);
    ReadyKnows(s.sh, s.past, t, s.threads[t], LockPhase(s.sh, s.threads));
  }

  /** A step without the lock leaves the books, and the holder, as they are. */
  lemma HolderRests(s: State, t: Tid, c: Choice)
    requires Invariant(s) && (t in s.threads ==> !InLock(s.threads[t].pc))
    ensures SameTables(s.sh, Step(s, t, c).sh)
    ensures HolderPc(Step(s, t, c)) == HolderPc(s) || (HolderPc(s) == Idle && HolderPc(Step(s, t, c)) == SlowRead)
  {
    assert LockOk(s.sh, s.threads);
    hide Invariant, Step, InLock, SameTables, HolderPc, HolderRanges, Ready;
    if t in s.threads {
      ThreadReady(s, t);
      NotPanicked(s.sh, s.past, t, s.threads[t], LockPhase(s.sh, s.threads));
    }
    OutsideHolder(s, t, c);
  }

  predicate StateTimely(s: State) { Timely(s.sh, HolderPc(s)) }

  lemma HolderStepTimely(s: State, t: Tid, c: Choice)
    requires Invariant(s) && StateTimely(s) && t in s.threads && InLock(s.threads[t].pc)
    ensures StateTimely(Step(s, t, c))
  {
    HolderIsKnown(s, t);
    assert HolderPc(s) == s.threads[t].pc;
    hide Invariant, Step, Action, HolderKnows, HolderPc, HolderRanges, InTime;
    HolderTimely(s.sh, t, s.threads[t], c);
    HolderAfter(s, t, c);
  }

  lemma StepTimely(s: State, t: Tid, c: Choice)
    requires Invariant(s) && StateTimely(s)
    ensures StateTimely(Step(s, t, c))
  {
    hide Invariant, Step, HolderPc;
    if t in s.threads && InLock(s.threads[t].pc) {
      hide StateTimely;
      HolderStepTimely(s, t, c);
    } else {
      HolderRests(s, t, c);
    }
  }

  lemma {:induction false} RunTimely(schedule: seq<Turn>)
    ensures StateTimely(Run(schedule))
  {
    hide Step, Invariant;
    if schedule != [] {
      var n := |schedule| - 1;
      RunTimely(schedule[..n]);
      Reachable(schedule[..n]);
      StepTimely(Run(schedule[..n]), schedule[n].thread, schedule[n].choice);
    }
  }

  // ---------------------------------------------------------------- what counts as a miss

  /** The turn looks up, with the lock, a key that read does not have but dirty may: for Load and LoadAndDelete that is
      a miss whatever comes of it, for LoadOrStore if dirty has the key. */
  predicate LooksPast(s: State, t: Tid) {
    && t in s.threads && s.threads[t].pc.SlowLookup?
    && match s.threads[t].op
       case Load(k) => k !in ReadTable(s.sh) && s.sh.read.amended
       case LoadAndDelete(k) => k !in ReadTable(s.sh) && s.sh.read.amended
       case LoadOrStore(k) => k !in ReadTable(s.sh) && k in DirtyTable(s.sh)
       case _ => false
  }

  /** The turn gives dirty up. */
  predicate GivesUp(s: State, t: Tid) {
    t in s.threads && s.threads[t].pc.Retire?
  }

  /** How many turns have looked past read since dirty was given up last. */
  function LookedPast(schedule: seq<Turn>): nat {
    if schedule == [] then 0
    else
      var n := |schedule| - 1;
      var s, t := Run(schedule[..n]), schedule[n].thread;
      if GivesUp(s, t) then 0 else LookedPast(schedule[..n]) + if LooksPast(s, t) then 1 else 0
  }

  /** It is not recorded yet. */
  function Pending(pc: Pc): nat {
    if pc.Miss? || (IsPut(pc) && pc.path.LockedDirty?) then 1 else 0
  }

  predicate CountsOn(sh: Shared, t: Tid, th: Thread, c: Choice, count: nat, count': nat) {
    var move := Action(sh, t, th.op, th.pc, c);
    count == sh.misses + Pending(th.pc) ==>
      count' == move.sh.misses + if move.sh.mu == None then 0 else Pending(move.pc)
  }

  lemma LookupCounts(sh: Shared, t: Tid, th: Thread, c: Choice, count: nat)
    requires HolderKnows(sh, t, th) && th.pc.SlowLookup?
    ensures CountsOn(sh, t, th, c, count, count + if LooksPast(State(sh, map[t := th], [], []), t) then 1 else 0)
  {
    hide InLock;
  }

  lemma RestCounts(sh: Shared, t: Tid, th: Thread, c: Choice, count: nat)
    requires HolderKnows(sh, t, th) && !th.pc.SlowLookup?
    ensures CountsOn(sh, t, th, c, count, if th.pc.Retire? then 0 else count)
  {
  }

  lemma MuAfter(sh: Shared, t: Tid, th: Thread, c: Choice)
    requires HolderKnows(sh, t, th)
    ensures Action(sh, t, th.op, th.pc, c).sh.mu in {None, Some(t)}
  {
  }

  lemma IdlePends()
    ensures Pending(Idle) == 0
  {
  }

  lemma HolderStepCounts(s: State, t: Tid, c: Choice, count: nat)
    requires Invariant(s) && count == s.sh.misses + Pending(HolderPc(s)) && t in s.threads && InLock(s.threads[t].pc)
    ensures var s' := Step(s, t, c);
      (if GivesUp(s, t) then 0 else count + if LooksPast(s, t) then 1 else 0) == s'.sh.misses + Pending(HolderPc(s'))
  {
    HolderIsKnown(s, t);
    assert HolderPc(s) == s.threads[t].pc;
    hide Invariant, Step, Action, HolderKnows, HolderPc, HolderRanges, Pending, InLock, ReadTable, DirtyTable;
    HolderAfter(s, t, c);
    MuAfter(s.sh, t, s.threads[t], c);
    if s.threads[t].pc.SlowLookup? {
      LookupCounts(s.sh, t, s.threads[t], c, count);
    } else {
      RestCounts(s.sh, t, s.threads[t], c, count);
    }
    IdlePends();
  }

  lemma StepCounts(s: State, t: Tid, c: Choice, count: nat)
    requires Invariant(s) && count == s.sh.misses + Pending(HolderPc(s))
    ensures var s' := Step(s, t, c);
      (if GivesUp(s, t) then 0 else count + if LooksPast(s, t) then 1 else 0) == s'.sh.misses + Pending(HolderPc(s'))
  {
    hide Invariant, Step, HolderPc;
    if t in s.threads && InLock(s.threads[t].pc) {
      hide GivesUp, LooksPast, Pending;
      HolderStepCounts(s, t, c, count);
    } else {
      HolderRests(s, t, c);
    }
  }

  lemma NothingPending()
    ensures Pending(HolderPc(Initial())) == 0
  {
  }

  lemma {:induction false} RunCounts(schedule: seq<Turn>)
    ensures LookedPast(schedule) == Run(schedule).sh.misses + Pending(HolderPc(Run(schedule)))
  {
    hide Step, Invariant, HolderPc, Pending, GivesUp, LooksPast;
    if schedule == [] {
      NothingPending();
    } else {
      var n := |schedule| - 1;
      RunCounts(schedule[..n]);
      Reachable(schedule[..n]);
      StepCounts(Run(schedule[..n]), schedule[n].thread, schedule[n].choice, LookedPast(schedule[..n]));
    }
  }

  /** Whenever the lock is free, fewer lookups have gone past read since dirty was given up last than dirty has keys,
      or there is no dirty and there were none: promotion comes at the lookup that makes them as many. */
  lemma PromotedInTime(schedule: seq<Turn>)
    requires Run(schedule).sh.mu.None?
    ensures var sh := Run(schedule).sh;
      && sh.misses == LookedPast(schedule)
      && (sh.dirty.Some? ==> LookedPast(schedule) < |DirtyTable(sh)|)
      && (sh.dirty.None? ==> LookedPast(schedule) == 0)
  {
    RunTimely(schedule);
    RunCounts(schedule);
    hide Run, LookedPast;
  }
}
