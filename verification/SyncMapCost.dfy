/**
 The cost of copying, under every schedule: the entries that all calls of dirtyLocked look at
 are no more than the calls of missLocked, and the entries that Range promoted.
 */
module SyncMapCost {
  import opened Options
  import opened SyncMapMachine
  import opened SyncMapInvariant
  import opened SyncMapSteps
  import opened SyncMapTheorems

  // ---------------------------------------------------------------- what a step costs

  /** The step takes up the next entry of read in the loop of dirtyLocked. */
  predicate TakesUp(s: State, t: Tid, c: Choice) {
    t in s.threads && s.threads[t].pc.Expunge? && c.key in s.threads[t].pc.todo
  }

  predicate Misses(s: State, t: Tid) {
    t in s.threads && s.threads[t].pc.Miss?
  }

  /** The step publishes dirty for a Range. */
  predicate Promotes(s: State, t: Tid) {
    t in s.threads && s.threads[t].pc.Publish? && s.threads[t].op.Range?
  }

  function Scanned(schedule: seq<Turn>): nat {
    if schedule == [] then 0
    else
      var n := |schedule| - 1;
      Scanned(schedule[..n])
        + if TakesUp(Run(schedule[..n]), schedule[n].thread, schedule[n].choice) then 1 else 0
  }

  function Missed(schedule: seq<Turn>): nat {
    if schedule == [] then 0
    else
      var n := |schedule| - 1;
      Missed(schedule[..n]) + if Misses(Run(schedule[..n]), schedule[n].thread) then 1 else 0
  }

  function Promoted(schedule: seq<Turn>): nat {
    if schedule == [] then 0
    else
      var n := |schedule| - 1;
      var s := Run(schedule[..n]);
      Promoted(schedule[..n]) + if Promotes(s, schedule[n].thread) then |DirtyTable(s.sh)| else 0
  }

  // ---------------------------------------------------------------- the account

  /** Where the lock holder is, and what it is about. */
  function HolderPc(s: State): Pc {
    if s.sh.mu.Some? && s.sh.mu.value in s.threads then s.threads[s.sh.mu.value].pc else Idle
  }

  predicate HolderRanges(s: State) {
    s.sh.mu.Some? && s.sh.mu.value in s.threads && s.threads[s.sh.mu.value].op.Range?
  }

  /** Between copies: misses pay for the next copy of dirty once it is read. */
  predicate Paid(sh: Shared, scanned: nat, budget: nat) {
    if sh.dirty.Some? then sh.misses >= 0 && scanned + sh.misses <= budget
    else sh.misses == 0 && scanned + |ReadTable(sh)| <= budget
  }

  /** The points at which that is all. */
  predicate Plain(pc: Pc) {
    !pc.Expunge? && !pc.ExpungeLoad? && !pc.ExpungeCas? && !pc.MarkAmended? && !pc.Publish? && !pc.Retire?
  }

  /** The account at each point of the lock holder; a Range pays for the table that it publishes. */
  predicate Affords(sh: Shared, pc: Pc, range: bool, scanned: nat, budget: nat) {
    match pc
    case Expunge(_, _, todo) => sh.misses == 0 && scanned + |todo| <= budget
    case ExpungeLoad(_, _, todo, k) => sh.misses == 0 && k in todo && scanned + |todo - {k}| <= budget
    case ExpungeCas(_, _, todo, k) => sh.misses == 0 && k in todo && scanned + |todo - {k}| <= budget
    case MarkAmended(_) => sh.misses == 0 && scanned <= budget && sh.dirty.Some?
    case Publish(_) => sh.misses >= 0 && scanned + sh.misses <= budget && (range || |DirtyTable(sh)| <= sh.misses)
    case Retire(_) => scanned + |ReadTable(sh)| <= budget
    case _ => Paid(sh, scanned, budget)
  }

  lemma PlainAffords(sh: Shared, pc: Pc, range: bool, scanned: nat, budget: nat)
    requires Plain(pc)
    ensures Affords(sh, pc, range, scanned, budget) <==> Paid(sh, scanned, budget)
  {
  }

  predicate StateAffords(s: State, scanned: nat, budget: nat) {
    Affords(s.sh, HolderPc(s), HolderRanges(s), scanned, budget)
  }

  // ---------------------------------------------------------------- one step

  predicate SameTables(sh: Shared, sh': Shared) {
    sh'.read == sh.read && sh'.dirty == sh.dirty && sh'.tables == sh.tables && sh'.misses == sh.misses
  }

  /** Without the lock a thread changes entries at most, or takes the lock if it is free. */
  lemma OutsideMoves(sh: Shared, t: Tid, op: Op, pc: Pc, c: Choice)
    requires !InLock(pc) && !pc.Idle? && !pc.Respond? && !pc.Panicked?
    ensures var move := Action(sh, t, op, pc, c);
      && SameTables(sh, move.sh)
      && (move.sh.mu == sh.mu || (sh.mu == None && move.sh.mu == Some(t) && move.pc == SlowRead))
  {
  }

  /** What the account of the lock holder needs of the invariant. */
  predicate HolderOk(sh: Shared, t: Tid, th: Thread) {
    && InLock(th.pc) && sh.mu == Some(t)
    && (sh.read.amended && th.pc.SlowLookup? ==> sh.dirty.Some?)
    && (th.pc.SlowLookup? ==> th.pc.snap == sh.read)
    && (th.pc.DirtyInit? ==> sh.dirty == None)
    && (th.pc.Expunge? || th.pc.ExpungeLoad? || th.pc.ExpungeCas? || th.pc.Publish? || th.pc.Miss? ==> sh.dirty.Some?)
    && (th.pc.ExpungeLoad? || th.pc.ExpungeCas? ==> sh.dirty != Some(sh.read.m))
  }

  /** The account after a step of the lock holder. */
  predicate AffordsNext(sh: Shared, t: Tid, th: Thread, c: Choice, scanned: nat, budget: nat) {
    var move := Action(sh, t, th.op, th.pc, c);
    var scanned' := scanned + if th.pc.Expunge? && c.key in th.pc.todo then 1 else 0;
    var budget' := budget + (if th.pc.Miss? then 1 else 0)
      + if th.pc.Publish? && th.op.Range? then |DirtyTable(sh)| else 0;
    if move.sh.mu == None then th.pc.Unlock? && Affords(move.sh, Idle, false, scanned', budget')
    else move.sh.mu == Some(t) && Affords(move.sh, move.pc, th.op.Range?, scanned', budget')
  }

  /** The step writes entries, or the dirty table, at most. */
  predicate SameBooks(sh: Shared, sh': Shared) {
    && sh'.read == sh.read && sh'.dirty == sh.dirty && sh'.misses == sh.misses && sh'.mu == sh.mu
    && (sh.dirty.Some? || sh'.tables == sh.tables)
  }

  /** A step from one plain point to another leaves the account alone. */
  lemma PlainNext(sh: Shared, t: Tid, th: Thread, c: Choice, scanned: nat, budget: nat)
    requires sh.mu == Some(t) && Plain(th.pc) && !th.pc.Miss?
    requires Affords(sh, th.pc, th.op.Range?, scanned, budget)
    requires var move := Action(sh, t, th.op, th.pc, c); SameBooks(sh, move.sh) && Plain(move.pc)
    ensures AffordsNext(sh, t, th, c, scanned, budget)
  {
    var move := Action(sh, t, th.op, th.pc, c);
    PlainAffords(sh, th.pc, th.op.Range?, scanned, budget);
    PlainAffords(move.sh, move.pc, th.op.Range?, scanned, budget);
    hide Action, Affords, Plain;
  }

  lemma LookupMoves(sh: Shared, t: Tid, th: Thread, c: Choice)
    requires HolderOk(sh, t, th) && (th.pc.SlowRead? || th.pc.SlowLookup?)
    ensures var move := Action(sh, t, th.op, th.pc, c);
      && SameBooks(sh, move.sh)
      && (Plain(move.pc) || (move.pc.Publish? && th.op.Range? && sh.dirty.Some? && move.sh == sh))
  {
  }

  lemma LookupAffords(sh: Shared, t: Tid, th: Thread, c: Choice, scanned: nat, budget: nat)
    requires HolderOk(sh, t, th) && (th.pc.SlowRead? || th.pc.SlowLookup?)
    requires Affords(sh, th.pc, th.op.Range?, scanned, budget)
    ensures AffordsNext(sh, t, th, c, scanned, budget)
  {
    LookupMoves(sh, t, th, c);
    hide Action;
    if Plain(Action(sh, t, th.op, th.pc, c).pc) {
      PlainNext(sh, t, th, c, scanned, budget);
    } else {
      PlainAffords(sh, th.pc, th.op.Range?, scanned, budget);
    }
  }

  lemma LeaveAffords(sh: Shared, t: Tid, th: Thread, c: Choice, scanned: nat, budget: nat)
    requires HolderOk(sh, t, th) && IsLeaving(th.pc)
    requires Affords(sh, th.pc, th.op.Range?, scanned, budget)
    ensures AffordsNext(sh, t, th, c, scanned, budget)
  {
  }

  lemma WriteMoves(sh: Shared, t: Tid, th: Thread, c: Choice)
    requires HolderOk(sh, t, th) && (IsPut(th.pc) || th.pc.Unexpunge? || th.pc.DirtyPut? || th.pc.StoreLocked?)
    ensures var move := Action(sh, t, th.op, th.pc, c); SameBooks(sh, move.sh) && Plain(move.pc)
  {
  }

  lemma FillMoves(sh: Shared, t: Tid, th: Thread, c: Choice)
    requires HolderOk(sh, t, th) && (th.pc.CallFn? || th.pc.InsertNew?)
    ensures var move := Action(sh, t, th.op, th.pc, c); SameBooks(sh, move.sh) && Plain(move.pc)
  {
  }

  lemma BeginMoves(sh: Shared, t: Tid, th: Thread, c: Choice)
    requires HolderOk(sh, t, th) && th.pc.DirtyInit?
    ensures var move := Action(sh, t, th.op, th.pc, c);
      && move.sh.mu == sh.mu && move.sh.misses == sh.misses
      && ((move.sh == sh && move.pc == th.pc)
          || (move.sh.dirty.Some? && move.pc == Expunge(th.pc.snap, sh.read.m, ReadTable(sh).Keys)))
  {
  }

  lemma EndMoves(sh: Shared, t: Tid, th: Thread, c: Choice)
    requires HolderOk(sh, t, th) && th.pc.MarkAmended?
    ensures var move := Action(sh, t, th.op, th.pc, c);
      && move.sh.mu == sh.mu && move.sh.misses == sh.misses && move.sh.dirty == sh.dirty && Plain(move.pc)
  {
  }

  /** Making dirty opens the account of the copy, marking read as amended closes it. */
  lemma BeginsAndEnds(sh: Shared, t: Tid, th: Thread, c: Choice, scanned: nat, budget: nat)
    requires HolderOk(sh, t, th) && (th.pc.DirtyInit? || th.pc.MarkAmended?)
    requires Affords(sh, th.pc, th.op.Range?, scanned, budget)
    ensures AffordsNext(sh, t, th, c, scanned, budget)
  {
    hide Action, Plain;
    if th.pc.DirtyInit? {
      BeginMoves(sh, t, th, c);
    } else {
      EndMoves(sh, t, th, c);
      PlainAffords(Action(sh, t, th.op, th.pc, c).sh, Action(sh, t, th.op, th.pc, c).pc, th.op.Range?, scanned, budget);
    }
  }

  lemma ExpungeMoves(sh: Shared, t: Tid, th: Thread, c: Choice)
    requires th.pc.Expunge?
    ensures var todo := th.pc.todo;
      Action(sh, t, th.op, th.pc, c) ==
      Goto(sh, if todo == {} then MarkAmended(th.pc.snap)
               else if c.key in todo then ExpungeLoad(th.pc.snap, th.pc.src, todo, c.key) else th.pc)
  {
  }

  lemma TakeOne(todo: set<Key>, k: Key)
    requires k in todo
    ensures |todo - {k}| + 1 == |todo|
  {
    assert todo == todo - {k} + {k};
  }

  /** The next entry, or none any more. */
  lemma ExpungeAffords(sh: Shared, t: Tid, th: Thread, c: Choice, scanned: nat, budget: nat)
    requires HolderOk(sh, t, th) && th.pc.Expunge?
    requires Affords(sh, th.pc, th.op.Range?, scanned, budget)
    ensures AffordsNext(sh, t, th, c, scanned, budget)
  {
    hide Action, Paid, ReadTable, DirtyTable;
    ExpungeMoves(sh, t, th, c);
    var todo := th.pc.todo;
    if c.key in todo {
      TakeOne(todo, c.key);
      assert Action(sh, t, th.op, th.pc, c) == Goto(sh, ExpungeLoad(th.pc.snap, th.pc.src, todo, c.key));
    } else if todo == {} {
      assert Action(sh, t, th.op, th.pc, c) == Goto(sh, MarkAmended(th.pc.snap));
    } else {
      assert Action(sh, t, th.op, th.pc, c) == Goto(sh, th.pc);
    }
  }

  lemma EntryMoves(sh: Shared, t: Tid, th: Thread, c: Choice)
    requires HolderOk(sh, t, th) && (th.pc.ExpungeLoad? || th.pc.ExpungeCas?)
    ensures var move, todo, k := Action(sh, t, th.op, th.pc, c), th.pc.todo, th.pc.k;
      && move.sh.mu == sh.mu && move.sh.misses == sh.misses
      && (move.pc == Expunge(th.pc.snap, th.pc.src, todo - {k})
          || move.pc == ExpungeLoad(th.pc.snap, th.pc.src, todo, k)
          || move.pc == ExpungeCas(th.pc.snap, th.pc.src, todo, k))
  {
  }

  /** An entry that was taken up is done with, or looked at again. */
  lemma EntryAffords(sh: Shared, t: Tid, th: Thread, c: Choice, scanned: nat, budget: nat)
    requires HolderOk(sh, t, th) && (th.pc.ExpungeLoad? || th.pc.ExpungeCas?)
    requires Affords(sh, th.pc, th.op.Range?, scanned, budget)
    ensures AffordsNext(sh, t, th, c, scanned, budget)
  {
    hide Action;
    EntryMoves(sh, t, th, c);
  }

  lemma HolderAffords(sh: Shared, t: Tid, th: Thread, c: Choice, scanned: nat, budget: nat)
    requires HolderOk(sh, t, th) && Affords(sh, th.pc, th.op.Range?, scanned, budget)
    ensures AffordsNext(sh, t, th, c, scanned, budget)
  {
    hide Affords, AffordsNext, Action;
    if th.pc.SlowRead? || th.pc.SlowLookup? {
      LookupAffords(sh, t, th, c, scanned, budget);
    } else if IsLeaving(th.pc) {
      LeaveAffords(sh, t, th, c, scanned, budget);
    } else if th.pc.DirtyInit? || th.pc.MarkAmended? {
      BeginsAndEnds(sh, t, th, c, scanned, budget);
    } else if th.pc.Expunge? {
      ExpungeAffords(sh, t, th, c, scanned, budget);
    } else if th.pc.ExpungeLoad? || th.pc.ExpungeCas? {
      EntryAffords(sh, t, th, c, scanned, budget);
    } else {
      if th.pc.CallFn? || th.pc.InsertNew? {
        FillMoves(sh, t, th, c);
      } else {
        WriteMoves(sh, t, th, c);
      }
      PlainNext(sh, t, th, c, scanned, budget);
    }
  }

  // ---------------------------------------------------------------- every step

  lemma ReadyHolder(sh: Shared, past: seq<Moment>, t: Tid, th: Thread, phase: Phase)
    requires Ready(sh, past, t, th, phase) && InLock(th.pc)
    ensures HolderOk(sh, t, th)
  {
    hide Abs, Typed, PublishedOk, DirtyOk, Covers, NoneExpunged, TailOk, FastOk, PutOk;
  }

  lemma HolderIsOk(s: State, t: Tid)
    requires Invariant(s) && t in s.threads && InLock(s.threads[t].pc)
    ensures HolderOk(s.sh, t, s.threads[t])
  {
    hide Invariant;
    ThreadReady(s, t);
    ReadyHolder(s.sh, s.past, t, s.threads[t], LockPhase(s.sh, s.threads));
  }

  /** What the account gains and spends in a step. */
  function Earned(s: State, t: Tid): nat {
    (if Misses(s, t) then 1 else 0) + if Promotes(s, t) then |DirtyTable(s.sh)| else 0
  }

  function Spent(s: State, t: Tid, c: Choice): nat {
    if TakesUp(s, t, c) then 1 else 0
  }

  /** What a step leaves of the shared state and the threads. */
  lemma StepLeaves(s: State, t: Tid, c: Choice)
    ensures var s', th := Step(s, t, c), ThreadOf(s, t, c);
      && (forall u :: u != t ==>
            (u in s'.threads <==> u in s.threads) && (u in s.threads ==> s'.threads[u] == s.threads[u]))
      && t in s'.threads
      && if th.pc.Idle? || th.pc.Respond? then s'.sh == s.sh && !InLock(s'.threads[t].pc)
         else
           var move := Action(s.sh, t, th.op, th.pc, c);
           s'.sh == move.sh && s'.threads[t].pc == move.pc && s'.threads[t].op == th.op
  {
    hide Action, Abs;
  }

  lemma HolderAfter(s: State, t: Tid, c: Choice)
    requires t in s.threads && InLock(s.threads[t].pc)
    ensures var s', th := Step(s, t, c), s.threads[t]; var move := Action(s.sh, t, th.op, th.pc, c);
      && s'.sh == move.sh
      && (s'.sh.mu == Some(t) ==> HolderPc(s') == move.pc && HolderRanges(s') == th.op.Range?)
      && (s'.sh.mu == None ==> HolderPc(s') == Idle && !HolderRanges(s'))
  {
    StepLeaves(s, t, c);
    hide Step, Action;
  }

  lemma HolderNow(s: State, t: Tid, scanned: nat, budget: nat)
    requires StateAffords(s, scanned, budget) && t in s.threads && HolderOk(s.sh, t, s.threads[t])
    ensures InLock(s.threads[t].pc) && Affords(s.sh, s.threads[t].pc, s.threads[t].op.Range?, scanned, budget)
  {
    hide Affords;
  }

  lemma Affording(s: State, scanned: nat, budget: nat)
    requires Affords(s.sh, HolderPc(s), HolderRanges(s), scanned, budget)
    ensures StateAffords(s, scanned, budget)
  {
    hide Affords, HolderPc, HolderRanges;
  }

  lemma HolderCosts(s: State, t: Tid, c: Choice)
    requires t in s.threads
    ensures var th := s.threads[t];
      && Spent(s, t, c) == (if th.pc.Expunge? && c.key in th.pc.todo then 1 else 0)
      && Earned(s, t) == (if th.pc.Miss? then 1 else 0)
           + if th.pc.Publish? && th.op.Range? then |DirtyTable(s.sh)| else 0
  {
    hide DirtyTable;
  }

  lemma HolderNext(s: State, t: Tid, c: Choice, scanned: nat, budget: nat)
    requires t in s.threads && InLock(s.threads[t].pc) && AffordsNext(s.sh, t, s.threads[t], c, scanned, budget)
    ensures StateAffords(Step(s, t, c), scanned + Spent(s, t, c), budget + Earned(s, t))
  {
    hide Step, Action, Affords, InLock, DirtyTable, HolderPc, HolderRanges, Spent, Earned;
    var s', th := Step(s, t, c), s.threads[t];
    var move := Action(s.sh, t, th.op, th.pc, c);
    var scanned', budget' := scanned + Spent(s, t, c), budget + Earned(s, t);
    HolderAfter(s, t, c);
    HolderCosts(s, t, c);
    assert if s'.sh.mu == None then Affords(s'.sh, Idle, false, scanned', budget')
      else s'.sh.mu == Some(t) && Affords(s'.sh, move.pc, th.op.Range?, scanned', budget');
    hide *;
    assert Affords(s'.sh, HolderPc(s'), HolderRanges(s'), scanned', budget');
    Affording(s', scanned', budget');
  }

  lemma HolderStep(s: State, t: Tid, c: Choice, scanned: nat, budget: nat)
    requires LockOk(s.sh, s.threads) && StateAffords(s, scanned, budget)
    requires t in s.threads && HolderOk(s.sh, t, s.threads[t])
    ensures StateAffords(Step(s, t, c), scanned + Spent(s, t, c), budget + Earned(s, t))
  {
    hide *;
    HolderNow(s, t, scanned, budget);
    HolderAffords(s.sh, t, s.threads[t], c, scanned, budget);
    HolderNext(s, t, c, scanned, budget);
  }

  lemma NoCosts(s: State, t: Tid, c: Choice)
    requires LockOk(s.sh, s.threads) && (t in s.threads ==> !InLock(s.threads[t].pc))
    ensures Spent(s, t, c) == Earned(s, t) == 0 && s.sh.mu != Some(t)
  {
    hide DirtyTable;
  }

  lemma OutsideHolder(s: State, t: Tid, c: Choice)
    requires LockOk(s.sh, s.threads) && s.sh.mu != Some(t)
    requires t in s.threads ==> !InLock(s.threads[t].pc) && !s.threads[t].pc.Panicked?
    ensures var s' := Step(s, t, c);
      && SameTables(s.sh, s'.sh)
      && ((HolderPc(s') == HolderPc(s) && HolderRanges(s') == HolderRanges(s))
          || (HolderPc(s) == Idle && HolderPc(s') == SlowRead))
  {
    var th, s' := ThreadOf(s, t, c), Step(s, t, c);
    StepLeaves(s, t, c);
    assert s.sh.mu.Some? ==> s.sh.mu.value in s.threads;
    hide Step, Action, LockOk, InLock;
    if !th.pc.Idle? && !th.pc.Respond? {
      assert !InLock(th.pc) && !th.pc.Panicked?;
      OutsideMoves(s.sh, t, th.op, th.pc, c);
    }
  }

  lemma OutsideBooks(s: State, s': State, scanned: nat, budget: nat)
    requires StateAffords(s, scanned, budget) && SameTables(s.sh, s'.sh)
    requires (HolderPc(s') == HolderPc(s) && HolderRanges(s') == HolderRanges(s))
      || (HolderPc(s) == Idle && HolderPc(s') == SlowRead)
    ensures StateAffords(s', scanned, budget)
  {
  }

  lemma OutsideStep(s: State, t: Tid, c: Choice, scanned: nat, budget: nat)
    requires LockOk(s.sh, s.threads) && StateAffords(s, scanned, budget)
    requires t in s.threads ==> !InLock(s.threads[t].pc) && !s.threads[t].pc.Panicked?
    ensures StateAffords(Step(s, t, c), scanned + Spent(s, t, c), budget + Earned(s, t))
  {
    hide Step, InLock, LockOk, SameTables, HolderPc, HolderRanges, StateAffords, Spent, Earned;
    NoCosts(s, t, c);
    OutsideHolder(s, t, c);
    OutsideBooks(s, Step(s, t, c), scanned, budget);
  }

  // ---------------------------------------------------------------- every schedule

  lemma StepAffords(s: State, t: Tid, c: Choice, scanned: nat, budget: nat)
    requires Invariant(s) && StateAffords(s, scanned, budget)
    ensures StateAffords(Step(s, t, c), scanned + Spent(s, t, c), budget + Earned(s, t))
  {
    assert LockOk(s.sh, s.threads);
    if t in s.threads && InLock(s.threads[t].pc) {
      HolderIsOk(s, t);
      hide Invariant, Step, StateAffords, HolderOk, InLock;
      HolderStep(s, t, c, scanned, budget);
    } else {
      if t in s.threads {
        ThreadReady(s, t);
        NotPanicked(s.sh, s.past, t, s.threads[t], LockPhase(s.sh, s.threads));
      }
      hide Invariant, Step, StateAffords, Ready;
      OutsideStep(s, t, c, scanned, budget);
    }
  }

  lemma CountsNext(schedule: seq<Turn>)
    requires schedule != []
    ensures var n := |schedule| - 1; var rest, t, c := schedule[..n], schedule[n].thread, schedule[n].choice;
      && Run(schedule) == Step(Run(rest), t, c)
      && Scanned(schedule) == Scanned(rest) + Spent(Run(rest), t, c)
      && Missed(schedule) + Promoted(schedule) == Missed(rest) + Promoted(rest) + Earned(Run(rest), t)
  {
    hide Step, Misses, Promotes, TakesUp, DirtyTable;
  }

  lemma NothingYet()
    ensures StateAffords(Run([]), Scanned([]), Missed([]) + Promoted([]))
  {
    assert ReadTable(ZERO) == map[];
  }

  lemma {:induction false} RunAffords(schedule: seq<Turn>)
    ensures StateAffords(Run(schedule), Scanned(schedule), Missed(schedule) + Promoted(schedule))
  {
    hide *;
    if schedule == [] {
      NothingYet();
    } else {
      var n := |schedule| - 1;
      var rest := schedule[..n];
      RunAffords(rest);
      Reachable(rest);
      CountsNext(schedule);
      StepAffords(Run(rest), schedule[n].thread, schedule[n].choice, Scanned(rest), Missed(rest) + Promoted(rest));
    }
  }

  /** Under every schedule of any number of threads, the entries that dirtyLocked has taken up so far
      are no more than the misses recorded, and the entries that Range has promoted. */
  lemma CopyingIsPaidFor(schedule: seq<Turn>)
    ensures Scanned(schedule) <= Missed(schedule) + Promoted(schedule)
  {
    RunAffords(schedule);
    hide Run;
  }
}
