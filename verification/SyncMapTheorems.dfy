/**
 The concurrent map is linearizable: under every schedule, every finished call has
 the answer an atomic map gives at one instant between its start and its end.
 */
module SyncMapTheorems {
  import opened Options
  import opened SyncMapMachine
  import opened SyncMapInvariant
  import opened SyncMapEffects
  import opened SyncMapRely
  import opened SyncMapSteps

  // ---------------------------------------------------------------- one step keeps the invariant

  lemma NotPanicked(sh: Shared, past: seq<Moment>, t: Tid, th: Thread, phase: Phase)
    requires Ready(sh, past, t, th, phase)
    ensures !th.pc.Panicked?
  {
    hide SharedOk, TailOk, LeavingOk, LockedOk, Abs;
  }

  lemma ActionOk(sh: Shared, past: seq<Moment>, t: Tid, th: Thread, phase: Phase, c: Choice)
    requires Ready(sh, past, t, th, phase) && !th.pc.Idle? && !th.pc.Respond?
    ensures MoveOk(sh, past, t, th, phase, Action(sh, t, th.op, th.pc, c))
  {
    NotPanicked(sh, past, t, th, phase);
    hide Ready, MoveOk, LookupMove, LeaveMove, DeleteMove, StoreMove, PutMove, FillMove, RangeIterMove;
    match th.pc
    case FastRead => FastReadStep(sh, past, t, th, phase);
    case FastLookup(_) => FastLookupStep(sh, past, t, th, phase);
    case Acquire => AcquireStep(sh, past, t, th, phase);
    case SlowRead => SlowReadStep(sh, past, t, th, phase);
    case SlowLookup(_) => SlowLookupStep(sh, past, t, th, phase);
    case Miss(_) => MissStep(sh, past, t, th, phase);
    case Publish(_) => PublishStep(sh, past, t, th, phase);
    case Retire(_) => RetireStep(sh, past, t, th, phase);
    case Unlock(_) => UnlockStep(sh, past, t, th, phase);
    case LoadSlot(_) => LoadSlotStep(sh, past, t, th, phase);
    case DeleteLoad(_, _) => DeleteLoadStep(sh, past, t, th, phase);
    case DeleteCas(_, _, _) => DeleteCasStep(sh, past, t, th, phase);
    case StoreLoad(_) => StoreLoadStep(sh, past, t, th, phase);
    case StoreCas(_, _) => StoreCasStep(sh, past, t, th, phase);
    case Unexpunge(_) => UnexpungeStep(sh, past, t, th, phase);
    case DirtyPut(_) => DirtyPutStep(sh, past, t, th, phase);
    case StoreLocked(_) => StoreLockedStep(sh, past, t, th, phase);
    case PutLoad(_, _) => PutStep(sh, past, t, th, phase, c);
    case PutCall(_, _) => PutStep(sh, past, t, th, phase, c);
    case PutCas(_, _, _) => PutStep(sh, past, t, th, phase, c);
    case PutReload(_, _, _) => PutStep(sh, past, t, th, phase, c);
    case DirtyInit(_) => DirtyInitStep(sh, past, t, th, phase, c);
    case Expunge(_, _, _) => ExpungeStep(sh, past, t, th, phase, c);
    case ExpungeLoad(_, _, _, _) => ExpungeLoadStep(sh, past, t, th, phase, c);
    case ExpungeCas(_, _, _, _) => ExpungeCasStep(sh, past, t, th, phase, c);
    case MarkAmended(_) => MarkAmendedStep(sh, past, t, th, phase, c);
    case CallFn => CallFnStep(sh, past, t, th, phase, c);
    case InsertNew(_) => InsertNewStep(sh, past, t, th, phase, c);
    case RangeIter(_, _, _) => RangeIterStep(sh, past, t, th, phase, c);
  }

  lemma ThreadReady(s: State, t: Tid)
    requires Invariant(s) && t in s.threads
    ensures Ready(s.sh, s.past, t, s.threads[t], LockPhase(s.sh, s.threads))
  {
    hide SharedOk, ThreadOk, Abs, DoneOk, HistoryOk, OneDeleter;
  }

  /** The entry a thread owns has left the map. */
  lemma MineUnlinked(sh: Shared, past: seq<Moment>, t: Tid, th: Thread)
    requires ThreadOk(sh, past, t, th) && Mine(th.pc).Some?
    ensures !Linked(sh, Mine(th.pc).value)
  {
    hide LockedOk, FastOk, HoldRead, FastHold, Linked, IterOk, Settled;
    if IsLeaving(th.pc) {
      assert Mine(th.pc) == Mine(th.pc.next);
    }
  }

  lemma HistoryExtends(past: seq<Moment>, m: Moment)
    requires HistoryOk(past)
    requires MomentOk(past + [m], |past|)
    ensures HistoryOk(past + [m])
  {
    hide Applies;
    forall i | 1 <= i < |past + [m]| ensures MomentOk(past + [m], i) {
      if i < |past| {
        assert MomentOk(past, i);
      }
    }
  }

  lemma DoneStays(past: seq<Moment>, m: Moment, done: seq<Call>)
    requires DoneOk(past, done)
    ensures DoneOk(past + [m], done)
  {
    hide Settled;
    forall j | 0 <= j < |done| ensures CallOk(past + [m], done[j]) {
      assert CallOk(past, done[j]);
      assert (past + [m])[..done[j].end] == past[..done[j].end];
    }
  }

  /** No step of thread t disturbs another thread. */
  lemma OthersStay(s: State, t: Tid, sh': Shared, own: Option<EntryId>, m: Moment)
    requires Invariant(s) && m.contents == Abs(sh') && Guarantee(s.sh, sh', own)
    requires s.sh.mu.Some? && s.sh.mu != Some(t) ==> LockGuarantee(s.sh, sh')
    requires own.Some? ==> t in s.threads && own == Mine(s.threads[t].pc)
    ensures forall u :: u in s.threads && u != t ==> ThreadOk(sh', s.past + [m], u, s.threads[u])
  {
    hide ThreadOk, SharedOk, Abs, Guarantee, LockGuarantee, DoneOk, HistoryOk;
    forall u | u in s.threads && u != t ensures ThreadOk(sh', s.past + [m], u, s.threads[u]) {
      if InLock(s.threads[u].pc) {
        HolderStays(s.sh, sh', own, s.past, m, u, s.threads[u]);
      } else {
        OutsideStays(s.sh, sh', own, s.past, m, u, s.threads[u]);
      }
    }
  }

  /** A step that leaves the shared state alone and touches no owned entry. */
  lemma QuietStep(s: State, t: Tid, th': Thread, done': seq<Call>)
    requires Invariant(s)
    requires t in s.threads ==> !InLock(s.threads[t].pc)
    requires !InLock(th'.pc) && Mine(th'.pc).None? && th'.start <= |s.past|
    requires ThreadOk(s.sh, s.past + [Quiet(s.sh)], t, th')
    requires DoneOk(s.past + [Quiet(s.sh)], done')
    ensures Invariant(Record(s, s.sh, t, th', None, done'))
  {
    hide ThreadOk, SharedOk, Abs, Guarantee, DoneOk;
    NoChange(s.sh);
    OthersStay(s, t, s.sh, None, Quiet(s.sh));
    HistoryExtends(s.past, Quiet(s.sh));
  }

  lemma StepStarts(s: State, t: Tid, c: Choice)
    requires Invariant(s) && ThreadOf(s, t, c).pc.Idle?
    ensures Invariant(Step(s, t, c))
  {
    hide SharedOk, Abs, TailOk, LeavingOk, LockedOk;
    DoneStays(s.past, Quiet(s.sh), s.done);
    QuietStep(s, t, Thread(c.op, FastRead, |s.past|, None), s.done);
  }

  lemma DoneAdds(past: seq<Moment>, done: seq<Call>, call: Call)
    requires DoneOk(past, done) && CallOk(past, call)
    ensures DoneOk(past, done + [call])
  {
    hide CallOk;
  }

  lemma StepFinishes(s: State, t: Tid, c: Choice)
    requires Invariant(s) && ThreadOf(s, t, c).pc.Respond?
    ensures Invariant(Step(s, t, c))
  {
    hide SharedOk, Abs, Settled, DoneOk, LeavingOk, LockedOk;
    var th := s.threads[t];
    var call := Call(t, th.op, th.start, |s.past|, th.effect, th.pc.answer);
    assert s.past[..|s.past|] == s.past;
    assert CallOk(s.past, call);
    DoneAdds(s.past, s.done, call);
    DoneStays(s.past, Quiet(s.sh), s.done + [call]);
    QuietStep(s, t, th.(pc := Idle, effect := None), s.done + [call]);
  }

  lemma MoveThreads(s: State, t: Tid, move: Move)
    requires Invariant(s) && t in s.threads
    requires MoveOk(s.sh, s.past, t, s.threads[t], LockPhase(s.sh, s.threads), move)
    ensures var th := s.threads[t];
      ThreadsOk(move.sh, s.past + [Moment(Abs(move.sh), MoveAct(t, th, move))],
                s.threads[t := MovedThread(s.past, th, move)])
  {
    hide SharedOk, ThreadOk, Abs, Guarantee, LockGuarantee, DoneOk, HistoryOk, OneDeleter, LockOk, EffectOk, LockMove;
    var th := s.threads[t];
    OthersStay(s, t, move.sh, OwnOf(s.sh, th.pc), Moment(Abs(move.sh), MoveAct(t, th, move)));
  }

  lemma PastEnds(s: State)
    requires Invariant(s)
    ensures |s.past| > 0
  {
  }

  lemma MoveMoment(s: State, t: Tid, move: Move)
    requires |s.past| > 0 && s.past[|s.past| - 1].contents == Abs(s.sh)
    requires t in s.threads && s.threads[t].start < |s.past| && EffectOk(s.sh, s.threads[t], move)
    ensures MomentOk(s.past + [Moment(Abs(move.sh), MoveAct(t, s.threads[t], move))], |s.past|)
  {
    hide Abs, Applies;
  }

  lemma MoveHistory(s: State, t: Tid, move: Move)
    requires Invariant(s) && t in s.threads
    requires MoveOk(s.sh, s.past, t, s.threads[t], LockPhase(s.sh, s.threads), move)
    ensures var m := Moment(Abs(move.sh), MoveAct(t, s.threads[t], move));
      HistoryOk(s.past + [m]) && DoneOk(s.past + [m], s.done)
  {
    hide SharedOk, ThreadOk, Abs, Guarantee, LockGuarantee, DoneOk, HistoryOk, OneDeleter, LockOk, LockMove, EffectOk;
    var m := Moment(Abs(move.sh), MoveAct(t, s.threads[t], move));
    PastEnds(s);
    MoveMoment(s, t, move);
    HistoryExtends(s.past, m);
    DoneStays(s.past, m, s.done);
  }

  lemma DeletersStay(s: State, t: Tid, move: Move)
    requires Invariant(s) && t in s.threads
    requires Mine(move.pc).Some? ==> Mine(move.pc) == Mine(s.threads[t].pc) || Linked(s.sh, Mine(move.pc).value)
    ensures OneDeleter(s.threads[t := MovedThread(s.past, s.threads[t], move)])
  {
    hide SharedOk, ThreadOk, Abs, DoneOk, HistoryOk, Linked;
    forall u | u in s.threads && u != t && Mine(s.threads[u].pc).Some?
      ensures !Linked(s.sh, Mine(s.threads[u].pc).value)
    {
      MineUnlinked(s.sh, s.past, u, s.threads[u]);
    }
  }

  lemma PhaseFollows(s: State, t: Tid, move: Move)
    requires Invariant(s) && t in s.threads && LockMove(s.sh, t, move)
    ensures var threads' := s.threads[t := MovedThread(s.past, s.threads[t], move)];
      && LockOk(move.sh, threads')
      && LockPhase(move.sh, threads') == MovedPhase(s.sh, t, LockPhase(s.sh, s.threads), move)
  {
    hide SharedOk, ThreadOk, Abs, DoneOk, HistoryOk, OneDeleter;
  }

  lemma MoveKeeps(s: State, t: Tid, move: Move)
    requires Invariant(s) && t in s.threads
    requires MoveOk(s.sh, s.past, t, s.threads[t], LockPhase(s.sh, s.threads), move)
    ensures Invariant(Record(s, move.sh, t, MovedThread(s.past, s.threads[t], move),
                             MoveAct(t, s.threads[t], move), s.done))
  {
    MoveThreads(s, t, move);
    MoveHistory(s, t, move);
    DeletersStay(s, t, move);
    PhaseFollows(s, t, move);
    hide SharedOk, ThreadsOk, ThreadOk, Abs, Guarantee, LockGuarantee, DoneOk, HistoryOk, OneDeleter, LockOk,
      LockPhase, MovedPhase, LockMove, EffectOk, MovedThread, MoveAct, Linked, Mine;
  }

  lemma StepActs(s: State, t: Tid, c: Choice)
    requires Invariant(s) && !ThreadOf(s, t, c).pc.Idle? && !ThreadOf(s, t, c).pc.Respond?
    ensures Invariant(Step(s, t, c))
  {
    var th := s.threads[t];
    var phase := LockPhase(s.sh, s.threads);
    var move := Action(s.sh, t, th.op, th.pc, c);
    hide Action, Invariant, Ready, MoveOk;
    ThreadReady(s, t);
    ActionOk(s.sh, s.past, t, th, phase, c);
    MoveKeeps(s, t, move);
    assert Step(s, t, c) == Record(s, move.sh, t, MovedThread(s.past, th, move), MoveAct(t, th, move), s.done);
  }

  lemma StepKeepsInvariant(s: State, t: Tid, c: Choice)
    requires Invariant(s)
    ensures Invariant(Step(s, t, c))
  {
    hide Invariant, Step;
    if ThreadOf(s, t, c).pc.Idle? {
      StepStarts(s, t, c);
    } else if ThreadOf(s, t, c).pc.Respond? {
      StepFinishes(s, t, c);
    } else {
      StepActs(s, t, c);
    }
  }

  // ---------------------------------------------------------------- every run

  lemma InitialOk()
    ensures Invariant(Initial())
  {
    assert Abs(ZERO) == map[];
  }

  /** The invariant holds after every schedule. */
  lemma {:induction false} Reachable(schedule: seq<Turn>)
    ensures Invariant(Run(schedule))
  {
    hide Invariant, Step;
    if schedule == [] {
      InitialOk();
    } else {
      var last := |schedule| - 1;
      Reachable(schedule[..last]);
      StepKeepsInvariant(Run(schedule[..last]), schedule[last].thread, schedule[last].choice);
    }
  }

  /** Linearizability.  The abstract contents change only at recorded effects, each
      the change the sequential map makes for the operation behind it; and every
      finished call, an effect or a mere observation, is settled by one moment
      between its start and its end. */
  lemma Linearizable(schedule: seq<Turn>)
    ensures var s := Run(schedule);
      && HistoryOk(s.past)
      && s.past[|s.past| - 1].contents == Abs(s.sh)
      && forall j :: 0 <= j < |s.done| ==> CallOk(s.past, s.done[j])
  {
    Reachable(schedule);
  }

  /** Whenever mu is free: amended tells whether dirty exists; dirty, if it exists,
      has exactly the entries of read that are not expunged, next to entries of its
      own, and none of dirty's entries is expunged. */
  lemma FreeShape(schedule: seq<Turn>)
    requires Run(schedule).sh.mu.None?
    ensures var sh := Run(schedule).sh;
      && (sh.read.amended <==> sh.dirty.Some?)
      && (forall k :: k in ReadTable(sh) && sh.dirty.Some? ==>
            (Slot(sh, ReadTable(sh)[k]) == Pointer.Expunged <==> k !in DirtyTable(sh)))
      && (forall k :: k in ReadTable(sh) && k in DirtyTable(sh) ==> DirtyTable(sh)[k] == ReadTable(sh)[k])
      && (forall k :: k in ReadTable(sh) && sh.dirty.None? ==> Slot(sh, ReadTable(sh)[k]) != Pointer.Expunged)
      && (forall k :: k in DirtyTable(sh) ==> Slot(sh, DirtyTable(sh)[k]) != Pointer.Expunged)
  {
    hide ThreadsOk, HistoryOk, DoneOk, LockOk, OneDeleter, Abs;
    Reachable(schedule);
  }

  lemma DirtyIsThere(sh: Shared, past: seq<Moment>, t: Tid, th: Thread, phase: Phase)
    requires Ready(sh, past, t, th, phase) && (th.pc.DirtyPut? || th.pc.InsertNew? || th.pc.ExpungeLoad?)
    ensures sh.dirty.Some?
  {
    hide Typed, PublishedOk, DirtyOk, Covers, NoneExpunged, TailOk, LeavingOk, FastOk, PutOk, Abs;
  }

  lemma NotExpunged(sh: Shared, past: seq<Moment>, t: Tid, th: Thread, phase: Phase)
    requires Ready(sh, past, t, th, phase) && (th.pc.StoreLocked? || (IsPut(th.pc) && !th.pc.path.Fast?))
    ensures Slot(sh, th.pc.e) != Pointer.Expunged
  {
    hide SharedOk, TailOk, LeavingOk, FastOk, Abs, Linked;
  }

  /** No run writes to a nil dirty map, and under the lock neither storeLocked nor
      tryLoadOrStore ever meets an expunged entry. */
  lemma LockedWritesAreSafe(schedule: seq<Turn>, t: Tid)
    requires t in Run(schedule).threads
    ensures var s := Run(schedule);
      var pc := s.threads[t].pc;
      && !pc.Panicked?
      && ((pc.DirtyPut? || pc.InsertNew? || pc.ExpungeLoad?) ==> s.sh.dirty.Some?)
      && ((pc.StoreLocked? || (IsPut(pc) && !pc.path.Fast?)) ==> Slot(s.sh, pc.e) != Pointer.Expunged)
  {
    hide Invariant, Ready, LockPhase, Run;
    Reachable(schedule);
    var s := Run(schedule);
    ThreadReady(s, t);
    NotPanicked(s.sh, s.past, t, s.threads[t], LockPhase(s.sh, s.threads));
    var pc := s.threads[t].pc;
    if pc.DirtyPut? || pc.InsertNew? || pc.ExpungeLoad? {
      DirtyIsThere(s.sh, s.past, t, s.threads[t], LockPhase(s.sh, s.threads));
    }
    if pc.StoreLocked? || (IsPut(pc) && !pc.path.Fast?) {
      NotExpunged(s.sh, s.past, t, s.threads[t], LockPhase(s.sh, s.threads));
    }
  }

  lemma StepKeepsPublished(s: State, t: Tid, c: Choice, m: TableId)
    requires Invariant(s) && Frozen(s.sh, m)
    ensures Frozen(Step(s, t, c).sh, m) && TableOf(Step(s, t, c).sh, m) == TableOf(s.sh, m)
  {
    var th := ThreadOf(s, t, c);
    if !th.pc.Idle? && !th.pc.Respond? {
      hide Invariant, Ready, Action, Frozen;
      ThreadReady(s, t);
      ActionOk(s.sh, s.past, t, th, LockPhase(s.sh, s.threads), c);
    }
  }

  /** A table that has been published never changes again: neither its keys nor
      the entries they lead to. */
  lemma {:induction false} PublishedNeverChanges(before: seq<Turn>, after: seq<Turn>, m: TableId)
    requires before <= after && Frozen(Run(before).sh, m)
    ensures Frozen(Run(after).sh, m) && TableOf(Run(after).sh, m) == TableOf(Run(before).sh, m)
    decreases |after|
  {
    hide Invariant, Step, Frozen, TableOf;
    if |after| == |before| {
      assert before == after;
    } else {
      var last := |after| - 1;
      var s := Run(after[..last]);
      assert before <= after[..last];
      PublishedNeverChanges(before, after[..last], m);
      Reachable(after[..last]);
      StepKeepsPublished(s, after[last].thread, after[last].choice, m);
    }
  }

  // ---------------------------------------------------------------- one call per effect

  predicate Active(s: State, t: Tid) { t in s.threads && !s.threads[t].pc.Idle? }

  /** The call that began at `start` on thread t is known to have had effect i. */
  ghost predicate EffectOf(s: State, t: Tid, start: nat, i: nat) {
    || (Active(s, t) && s.threads[t].start == start && s.threads[t].effect == Some(i))
    || exists j :: 0 <= j < |s.done| && s.done[j].thread == t && s.done[j].start == start && s.done[j].effect == Some(i)
  }

  /** No two calls begin at the same moment. */
  ghost predicate StartsApart(s: State) {
    && (forall j :: 0 <= j < |s.done| ==> s.done[j].start < |s.past|)
    && (forall t :: Active(s, t) ==> s.threads[t].start < |s.past|)
    && (forall i, j :: 0 <= i < j < |s.done| ==> s.done[i].start != s.done[j].start)
    && (forall t, j :: Active(s, t) && 0 <= j < |s.done| ==> s.done[j].start != s.threads[t].start)
    && (forall t, u :: Active(s, t) && Active(s, u) && t != u ==> s.threads[t].start != s.threads[u].start)
  }

  /** Every recorded effect is that of a call, running or finished. */
  ghost predicate EffectsKnown(s: State) {
    forall i :: 0 <= i < |s.past| && s.past[i].act.Some? ==>
      EffectOf(s, s.past[i].act.value.thread, s.past[i].act.value.start, i)
  }

  /** A call that ends leaves its start to the finished ones. */
  lemma EndKeepsStarts(s: State, s': State, t: Tid)
    requires StartsApart(s) && Active(s, t) && !Active(s', t) && |s'.past| >= |s.past|
    requires forall u :: u != t ==> (Active(s', u) <==> Active(s, u))
    requires forall u :: Active(s', u) ==> s'.threads[u] == s.threads[u]
    requires |s'.done| == |s.done| + 1 && s'.done[..|s.done|] == s.done
    requires s'.done[|s.done|].start == s.threads[t].start
    ensures StartsApart(s')
  {
    assert forall i :: 0 <= i < |s.done| ==> s'.done[i] == s.done[i];
  }

  lemma StepKeepsStarts(s: State, t: Tid, c: Choice)
    requires StartsApart(s)
    ensures StartsApart(Step(s, t, c))
  {
    hide Action;
    var s' := Step(s, t, c);
    assert forall u :: u != t ==> (Active(s', u) <==> Active(s, u));
    assert forall u :: Active(s', u) && u != t ==> s'.threads[u] == s.threads[u];
    if ThreadOf(s, t, c).pc.Respond? {
      hide StartsApart;
      EndKeepsStarts(s, s', t);
    } else if ThreadOf(s, t, c).pc.Idle? {
      assert s'.done == s.done && s'.threads[t].start == |s.past|;
    } else {
      assert s'.done == s.done && s'.threads[t].start == s.threads[t].start && Active(s, t);
    }
  }

  lemma ActionOutcome(s: State, t: Tid, c: Choice)
    requires Invariant(s) && Active(s, t) && !s.threads[t].pc.Respond?
    ensures var th := s.threads[t];
      var move := Action(s.sh, t, th.op, th.pc, c);
      && (move.effect.Some? ==> th.effect.None?)
      && !move.pc.Idle?
  {
    hide Invariant, Ready, Action, SharedOk, Guarantee, LockGuarantee, Abs, Applies;
    ThreadReady(s, t);
    ActionOk(s.sh, s.past, t, s.threads[t], LockPhase(s.sh, s.threads), c);
  }

  lemma EffectStays(s: State, t: Tid, c: Choice, u: Tid, start: nat, i: nat)
    requires Invariant(s) && EffectOf(s, u, start, i)
    ensures EffectOf(Step(s, t, c), u, start, i)
  {
    hide Invariant, Action;
    var s' := Step(s, t, c);
    if j :| 0 <= j < |s.done| && s.done[j].thread == u && s.done[j].start == start && s.done[j].effect == Some(i) {
      assert s'.done[j] == s.done[j];
    } else if u == t {
      var th := s.threads[t];
      if th.pc.Respond? {
        assert s'.done[|s.done|] == Call(t, th.op, th.start, |s.past|, th.effect, th.pc.answer);
      } else {
        ActionOutcome(s, t, c);
      }
    }
  }

  lemma NewEffect(s: State, t: Tid, c: Choice)
    requires Invariant(s)
    ensures var s' := Step(s, t, c);
      && |s'.past| == |s.past| + 1
      && var act := s'.past[|s.past|].act;
         act.Some? ==> EffectOf(s', act.value.thread, act.value.start, |s.past|)
  {
    hide Invariant, Action;
    if !ThreadOf(s, t, c).pc.Idle? && !ThreadOf(s, t, c).pc.Respond? {
      ActionOutcome(s, t, c);
    }
  }

  lemma StepKeepsEffects(s: State, t: Tid, c: Choice)
    requires Invariant(s) && EffectsKnown(s)
    ensures EffectsKnown(Step(s, t, c))
  {
    var s' := Step(s, t, c);
    hide Invariant, EffectOf, Action;
    forall i | 0 <= i < |s'.past| && s'.past[i].act.Some?
      ensures EffectOf(s', s'.past[i].act.value.thread, s'.past[i].act.value.start, i)
    {
      if i < |s.past| {
        assert s'.past[i] == s.past[i];
        var act := s.past[i].act.value;
        EffectStays(s, t, c, act.thread, act.start, i);
      } else {
        NewEffect(s, t, c);
      }
    }
  }

  lemma InitialBookkeeping()
    ensures StartsApart(Initial()) && EffectsKnown(Initial())
  {
  }

  /** Every recorded effect belongs to one call, and no two calls share one: calls
      differ in their starting moments, and an effect names thread and start. */
  lemma {:induction false} OneCallPerEffect(schedule: seq<Turn>)
    ensures StartsApart(Run(schedule)) && EffectsKnown(Run(schedule))
  {
    hide Invariant, Step, StartsApart, EffectsKnown;
    if schedule == [] {
      InitialBookkeeping();
    } else {
      var last := |schedule| - 1;
      Reachable(schedule[..last]);
      OneCallPerEffect(schedule[..last]);
      StepKeepsStarts(Run(schedule[..last]), schedule[last].thread, schedule[last].choice);
      StepKeepsEffects(Run(schedule[..last]), schedule[last].thread, schedule[last].choice);
    }
  }

  // ---------------------------------------------------------------- racing LoadOrStore

  /** No effect so far was a store to, or a deletion of, key k. */
  ghost predicate OnlyLoadOrStore(past: seq<Moment>, k: Key) {
    forall i :: 0 <= i < |past| && past[i].act.Some? && !past[i].act.value.op.Range? && past[i].act.value.op.key == k
      ==> past[i].act.value.op.LoadOrStore?
  }

  /** Then a value, once there, stays. */
  lemma {:induction false} ValueStays(past: seq<Moment>, k: Key, i: nat, j: nat)
    requires HistoryOk(past) && OnlyLoadOrStore(past, k)
    requires i <= j < |past| && k in past[i].contents
    ensures k in past[j].contents && past[j].contents[k] == past[i].contents[k]
    decreases j
  {
    if i < j {
      ValueStays(past, k, i, j - 1);
      assert MomentOk(past, j);
    }
  }

  /** Moment i is the effect of a LoadOrStore that put v under k. */
  ghost predicate Wins(past: seq<Moment>, k: Key, i: nat, v: Value) {
    && 1 <= i < |past| && past[i].act.Some?
    && past[i].act.value.op == LoadOrStore(k) && past[i].act.value.answer == Actual(Some(v), false)
    && k !in past[i - 1].contents && Get(past[i].contents, k) == Some(v)
  }

  /** If k is there at moment j, some LoadOrStore put it there. */
  lemma {:induction false} WinnerExists(past: seq<Moment>, k: Key, j: nat) returns (i: nat)
    requires HistoryOk(past) && OnlyLoadOrStore(past, k) && j < |past| && k in past[j].contents
    ensures i <= j && Wins(past, k, i, past[j].contents[k])
    decreases j
  {
    assert j > 0;
    assert MomentOk(past, j);
    if k in past[j - 1].contents {
      i := WinnerExists(past, k, j - 1);
      ValueStays(past, k, j - 1, j);
    } else {
      i := j;
    }
  }

  lemma OneWinner(past: seq<Moment>, k: Key, i: nat, v: Value, j: nat, w: Value)
    requires HistoryOk(past) && OnlyLoadOrStore(past, k) && Wins(past, k, i, v) && Wins(past, k, j, w)
    ensures i == j && v == w
  {
    if i < j {
      ValueStays(past, k, i, j - 1);
    } else if j < i {
      ValueStays(past, k, j, i - 1);
    }
  }

  /** What one call of the race was told. */
  lemma RaceAnswer(past: seq<Moment>, k: Key, call: Call, i: nat, v: Value)
    requires HistoryOk(past) && OnlyLoadOrStore(past, k) && Wins(past, k, i, v)
    requires CallOk(past, call) && call.op == LoadOrStore(k)
    ensures call.answer == Actual(Some(v), call.effect != Some(i))
  {
    var at: nat;
    match call.effect {
      case Some(e) =>
        at := e;
        assert past[..call.end][e] == past[e] && MomentOk(past, e);
      case None =>
        at :| call.start <= at < |past[..call.end]|
          && Applies(call.op, past[..call.end][at].contents, call.answer, past[..call.end][at].contents);
    }
    assert k in past[at].contents;
    var winner := WinnerExists(past, k, at);
    OneWinner(past, k, i, v, winner, past[at].contents[k]);
    if call.effect.Some? && k !in past[at - 1].contents {
      OneWinner(past, k, i, v, at, past[at].contents[k]);
    }
  }

  lemma EffectNamesCall(past: seq<Moment>, call: Call, i: nat)
    requires CallOk(past, call) && call.effect == Some(i)
    ensures i < |past| && past[i].act == Some(Act(call.thread, call.start, call.op, call.answer))
  {
  }

  lemma RaceWinner(past: seq<Moment>, k: Key, call: Call) returns (i: nat, v: Value)
    requires HistoryOk(past) && OnlyLoadOrStore(past, k) && CallOk(past, call) && call.op == LoadOrStore(k)
    ensures Wins(past, k, i, v)
  {
    var at: nat;
    match call.effect {
      case Some(e) =>
        at := e;
        assert past[..call.end][e] == past[e] && MomentOk(past, e);
      case None =>
        at :| call.start <= at < |past[..call.end]|
          && Applies(call.op, past[..call.end][at].contents, call.answer, past[..call.end][at].contents);
    }
    v := past[at].contents[k];
    i := WinnerExists(past, k, at);
  }

  /** Any number of threads racing LoadOrStore on a key nothing else changes agree:
      all are given the same value, exactly one call, the one whose effect is moment
      i, is told that it stored it, and that call has returned or still runs. */
  lemma LoadOrStoreRace(schedule: seq<Turn>, k: Key, j: nat) returns (i: nat, v: Value)
    requires var s := Run(schedule);
      OnlyLoadOrStore(s.past, k) && j < |s.done| && s.done[j].op == LoadOrStore(k)
    ensures var s := Run(schedule);
      && Wins(s.past, k, i, v)
      && EffectOf(s, s.past[i].act.value.thread, s.past[i].act.value.start, i)
      && (forall a :: 0 <= a < |s.done| && s.done[a].op == LoadOrStore(k) ==>
            s.done[a].answer == Actual(Some(v), s.done[a].effect != Some(i)))
      && (forall a, b :: 0 <= a < b < |s.done| && s.done[a].effect == Some(i) ==> s.done[b].effect != Some(i))
  {
    var s := Run(schedule);
    Reachable(schedule);
    OneCallPerEffect(schedule);
    i, v := RaceWinner(s.past, k, s.done[j]);
    forall a | 0 <= a < |s.done| && s.done[a].op == LoadOrStore(k)
      ensures s.done[a].answer == Actual(Some(v), s.done[a].effect != Some(i))
    {
      RaceAnswer(s.past, k, s.done[a], i, v);
    }
    forall a, b | 0 <= a < b < |s.done| && s.done[a].effect == Some(i) ensures s.done[b].effect != Some(i) {
      EffectNamesCall(s.past, s.done[a], i);
      if s.done[b].effect == Some(i) {
        EffectNamesCall(s.past, s.done[b], i);
      }
    }
  }
}
