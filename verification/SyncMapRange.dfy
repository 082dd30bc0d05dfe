/**
 What a concurrent Range tells its callback (pkg/sync/map.go:354-362), over schedules: which keys and
 values the callback is given, what it answers, and what the call has visited when it ends.
 */
module SyncMapRange {
  import opened Options
  import opened SyncMapMachine
  import opened SyncMapInvariant
  import opened SyncMapTheorems

  // ---------------------------------------------------------------- what the callback hears

  /** One call of a callback: what it is given, and whether it asks to stop. */
  datatype Word = Word(key: Key, value: Value, stop: bool)

  /** The value that a thread in the loop of Range finds under key k. */
  function ValueAt(sh: Shared, pc: Pc, k: Key): Option<Value>
    requires pc.RangeIter?
  {
    var table := TableOf(sh, pc.m);
    if k in table then ValueOf(Slot(sh, table[k])) else None
  }

  /** A thread calls its callback in the loop of Range, when the key it comes to is still to be seen and has a value. */
  function Says(sh: Shared, pc: Pc, c: Choice): Option<Word> {
    if pc.RangeIter? && c.key in pc.todo && ValueAt(sh, pc, c.key).Some?
    then Some(Word(c.key, ValueAt(sh, pc, c.key).value, c.stop)) else None
  }

  /** What turn i of the schedule tells the callback of thread t. */
  function Said(schedule: seq<Turn>, t: Tid, i: nat): Option<Word>
    requires i < |schedule|
  {
    var s := Run(schedule[..i]);
    if schedule[i].thread == t && t in s.threads then Says(s.sh, s.threads[t].pc, schedule[i].choice) else None
  }

  /** What the turns from start up to end tell it, in order. */
  function Heard(schedule: seq<Turn>, t: Tid, start: nat, end: nat): seq<Word>
    requires end <= |schedule|
  {
    if end <= start then []
    else
      Heard(schedule, t, start, end - 1) +
        match Said(schedule, t, end - 1) case None => [] case Some(word) => [word]
  }

  lemma {:induction false} HeardLonger(schedule: seq<Turn>, turn: Turn, t: Tid, start: nat, end: nat)
    requires end <= |schedule|
    ensures Heard(schedule + [turn], t, start, end) == Heard(schedule, t, start, end)
  {
    hide Run, Says;
    if end > start {
      HeardLonger(schedule, turn, t, start, end - 1);
      assert (schedule + [turn])[..end - 1] == schedule[..end - 1];
    }
  }

  /** The callback hears of just the keys visited, each once, with its value there, and asks to stop at the last
      of them or never. */
  ghost predicate Tells(heard: seq<Word>, visited: Contents, stopped: bool) {
    && (forall i :: 0 <= i < |heard| ==> heard[i].key in visited && visited[heard[i].key] == heard[i].value)
    && (forall k :: k in visited ==> exists i :: 0 <= i < |heard| && heard[i].key == k)
    && (forall i, j :: 0 <= i < j < |heard| ==> heard[i].key != heard[j].key)
    && (forall i :: 0 <= i < |heard| - 1 ==> !heard[i].stop)
    && (stopped <==> heard != [] && heard[|heard| - 1].stop)
  }

  lemma TellsMore(heard: seq<Word>, visited: Contents, word: Word)
    requires Tells(heard, visited, false) && word.key !in visited
    ensures Tells(heard + [word], visited[word.key := word.value], word.stop)
  {
    var heard', visited' := heard + [word], visited[word.key := word.value];
    forall k | k in visited'
      ensures exists i :: 0 <= i < |heard'| && heard'[i].key == k
    {
      if k == word.key {
        assert heard'[|heard|].key == k;
      } else {
        var i :| 0 <= i < |heard| && heard[i].key == k;
        assert heard'[i].key == k;
      }
    }
    assert forall i :: 0 <= i < |heard| ==> heard'[i] == heard[i];
  }

  // ---------------------------------------------------------------- one step

  /** What a thread has visited so far. */
  function SoFar(pc: Pc): Contents {
    match pc
    case RangeIter(_, _, visited) => visited
    case Respond(answer) => if answer.Visits? then answer.visited else map[]
    case Miss(next) => SoFar(next)
    case Publish(next) => SoFar(next)
    case Retire(next) => SoFar(next)
    case Unlock(next) => SoFar(next)
    case _ => map[]
  }

  /** It is about to end although it has not seen all. */
  predicate Stops(pc: Pc) {
    match pc
    case Respond(answer) => answer.Visits? && !answer.all
    case Miss(next) => Stops(next)
    case Publish(next) => Stops(next)
    case Retire(next) => Stops(next)
    case Unlock(next) => Stops(next)
    case _ => false
  }

  /** Where a Range may be: its callback is never to be given a key twice, and its answer is what was visited. */
  predicate RangePc(pc: Pc) {
    match pc
    case RangeIter(_, todo, visited) => todo !! visited.Keys
    case Respond(answer) => answer.Visits?
    case Miss(next) => RangePc(next)
    case Publish(next) => RangePc(next)
    case Retire(next) => RangePc(next)
    case Unlock(next) => RangePc(next)
    case _ => pc.FastRead? || pc.FastLookup? || pc.Acquire? || pc.SlowRead? || pc.SlowLookup?
  }

  /** From pc to pc' a thread visits what its callback hears of, and nothing else. */
  predicate Visits(sh: Shared, pc: Pc, c: Choice, pc': Pc) {
    && RangePc(pc')
    && match Says(sh, pc, c)
       case None => SoFar(pc') == SoFar(pc) && Stops(pc') == Stops(pc)
       case Some(word) =>
         && word.key !in SoFar(pc) && !Stops(pc)
         && SoFar(pc') == SoFar(pc)[word.key := word.value] && Stops(pc') == word.stop
  }

  lemma LoopMoves(sh: Shared, pc: Pc, c: Choice)
    requires RangePc(pc) && pc.RangeIter?
    ensures Visits(sh, pc, c, RangeIterMove(sh, pc, c).pc)
  {
  }

  lemma LookupMoves(sh: Shared, t: Tid, pc: Pc, c: Choice)
    requires pc.FastRead? || pc.FastLookup? || pc.Acquire? || pc.SlowRead? || pc.SlowLookup?
    ensures Visits(sh, pc, c, LookupMove(sh, t, Range, pc).pc)
  {
  }

  lemma LeaveMoves(sh: Shared, pc: Pc, c: Choice)
    requires RangePc(pc) && IsLeaving(pc)
    ensures Visits(sh, pc, c, LeaveMove(sh, pc).pc)
  {
  }

  lemma RangeMoves(sh: Shared, t: Tid, pc: Pc, c: Choice)
    requires RangePc(pc) && !pc.Respond?
    ensures Visits(sh, pc, c, Action(sh, t, Range, pc, c).pc)
  {
    hide RangeIterMove, LookupMove, LeaveMove, Visits;
    if pc.RangeIter? {
      LoopMoves(sh, pc, c);
    } else if IsLeaving(pc) {
      LeaveMoves(sh, pc, c);
    } else {
      LookupMoves(sh, t, pc, c);
    }
  }

  // ---------------------------------------------------------------- every schedule

  lemma {:induction false} PastLength(schedule: seq<Turn>)
    ensures |Run(schedule).past| == |schedule| + 1
  {
    hide Action;
    if schedule != [] {
      PastLength(schedule[..|schedule| - 1]);
    }
  }

  /** A Range under way has visited what its callback has heard of. */
  ghost predicate UnderWay(schedule: seq<Turn>, t: Tid) {
    var s := Run(schedule);
    Active(s, t) && s.threads[t].op.Range? ==>
      && RangePc(s.threads[t].pc)
      && Tells(Heard(schedule, t, s.threads[t].start, |schedule|), SoFar(s.threads[t].pc), Stops(s.threads[t].pc))
  }

  ghost predicate Ended(schedule: seq<Turn>, call: Call) {
    call.op.Range? ==>
      && call.answer.Visits? && call.end <= |schedule|
      && Tells(Heard(schedule, call.thread, call.start, call.end), call.answer.visited, !call.answer.all)
  }

  lemma EndedStays(schedule: seq<Turn>, turn: Turn, call: Call)
    requires Ended(schedule, call)
    ensures Ended(schedule + [turn], call)
  {
    hide Heard, Tells;
    if call.op.Range? {
      HeardLonger(schedule, turn, call.thread, call.start, call.end);
    }
  }

  /** One turn more is heard of, if it tells anything. */
  lemma HeardNext(schedule: seq<Turn>, turn: Turn, t: Tid, start: nat)
    requires start <= |schedule|
    ensures var s := Run(schedule);
      Heard(schedule + [turn], t, start, |schedule| + 1) ==
        Heard(schedule, t, start, |schedule|) +
          if turn.thread == t && t in s.threads && Says(s.sh, s.threads[t].pc, turn.choice).Some?
          then [Says(s.sh, s.threads[t].pc, turn.choice).value] else []
  {
    hide Run, Says;
    HeardLonger(schedule, turn, t, start, |schedule|);
    assert (schedule + [turn])[..|schedule|] == schedule;
  }

  /** What a step leaves of the threads. */
  lemma StepThread(s: State, t: Tid, c: Choice, u: Tid)
    ensures var s' := Step(s, t, c);
      if u != t then (u in s'.threads <==> u in s.threads) && (u in s.threads ==> s'.threads[u] == s.threads[u])
      else
        var th := ThreadOf(s, t, c);
        && t in s'.threads
        && (th.pc.Idle? ==> s'.threads[t] == Thread(c.op, FastRead, |s.past|, None))
        && (th.pc.Respond? ==> s'.threads[t].pc.Idle?)
        && (!th.pc.Idle? && !th.pc.Respond? ==>
              && s'.threads[t].op == th.op && s'.threads[t].start == th.start
              && s'.threads[t].pc == Action(s.sh, t, th.op, th.pc, c).pc)
  {
    hide Action, Abs;
  }

  lemma StepDone(s: State, t: Tid, c: Choice)
    ensures var s', th := Step(s, t, c), ThreadOf(s, t, c);
      s'.done == s.done +
        if th.pc.Respond? then [Call(t, th.op, th.start, |s.past|, th.effect, th.pc.answer)] else []
  {
    hide Action, Abs;
  }

  lemma StartTells(schedule: seq<Turn>, t: Tid)
    ensures RangePc(FastRead) && Tells(Heard(schedule, t, |schedule|, |schedule|), SoFar(FastRead), Stops(FastRead))
  {
  }

  lemma MoveTells(sh: Shared, t: Tid, pc: Pc, c: Choice, heard: seq<Word>)
    requires RangePc(pc) && !pc.Respond? && Tells(heard, SoFar(pc), Stops(pc))
    ensures var pc', word := Action(sh, t, Range, pc, c).pc, Says(sh, pc, c);
      RangePc(pc') && Tells(heard + if word.Some? then [word.value] else [], SoFar(pc'), Stops(pc'))
  {
    RangeMoves(sh, t, pc, c);
    hide RangePc, Action, Says, SoFar, Stops, Tells;
    if Says(sh, pc, c).Some? {
      TellsMore(heard, SoFar(pc), Says(sh, pc, c).value);
    } else {
      assert heard + [] == heard;
    }
  }

  /** A thread that is called to end, or is not in the loop, tells nothing. */
  lemma RespondSays(sh: Shared, pc: Pc, c: Choice)
    requires pc.Respond? || pc.Idle?
    ensures Says(sh, pc, c) == None
  {
  }

  ghost predicate AllUnderWay(schedule: seq<Turn>) {
    forall t :: Active(Run(schedule), t) ==>
      Run(schedule).threads[t].start <= |schedule| && UnderWay(schedule, t)
  }

  lemma {:induction false} UnderWayStays(schedule: seq<Turn>, turn: Turn, u: Tid)
    requires AllUnderWay(schedule) && Run(schedule + [turn]) == Step(Run(schedule), turn.thread, turn.choice)
    requires Active(Run(schedule + [turn]), u)
    ensures Run(schedule + [turn]).threads[u].start <= |schedule| + 1 && UnderWay(schedule + [turn], u)
  {
    hide Run, Step, Action, Heard, Tells, Says, RangePc, Visits, SoFar, Stops;
    var s, t, c := Run(schedule), turn.thread, turn.choice;
    StepThread(s, t, c, u);
    PastLength(schedule);
    if u in s.threads && !s.threads[u].pc.Idle? {
      assert Active(s, u) && UnderWay(schedule, u);
      var th := s.threads[u];
      HeardNext(schedule, turn, u, th.start);
      if u != t {
        assert Heard(schedule, u, th.start, |schedule|) + [] == Heard(schedule, u, th.start, |schedule|);
      } else if th.op.Range? {
        MoveTells(s.sh, t, th.pc, c, Heard(schedule, u, th.start, |schedule|));
      }
    } else {
      StartTells(schedule + [turn], u);
    }
  }

  lemma EndsNow(schedule: seq<Turn>, turn: Turn)
    requires AllUnderWay(schedule) && turn.thread in Run(schedule).threads
    requires Run(schedule).threads[turn.thread].pc.Respond?
    ensures var s, th := Run(schedule), Run(schedule).threads[turn.thread];
      Ended(schedule + [turn], Call(turn.thread, th.op, th.start, |s.past|, th.effect, th.pc.answer))
  {
    hide Run, Heard, Tells, Says;
    var s, t := Run(schedule), turn.thread;
    var th := s.threads[t];
    PastLength(schedule);
    assert Active(s, t) && UnderWay(schedule, t);
    HeardNext(schedule, turn, t, th.start);
    RespondSays(s.sh, th.pc, turn.choice);
    assert Heard(schedule, t, th.start, |schedule|) + [] == Heard(schedule, t, th.start, |schedule|);
  }

  lemma EndsAll(schedule: seq<Turn>, turn: Turn, j: nat)
    requires AllUnderWay(schedule) && Run(schedule + [turn]) == Step(Run(schedule), turn.thread, turn.choice)
    requires forall i :: 0 <= i < |Run(schedule).done| ==> Ended(schedule, Run(schedule).done[i])
    requires j < |Run(schedule + [turn]).done|
    ensures Ended(schedule + [turn], Run(schedule + [turn]).done[j])
  {
    hide Run, Step, Action, Heard, Tells, Says, RangePc, Visits, SoFar, Stops, Ended;
    var s, t, c := Run(schedule), turn.thread, turn.choice;
    StepDone(s, t, c);
    if j < |s.done| {
      EndedStays(schedule, turn, s.done[j]);
    } else {
      EndsNow(schedule, turn);
    }
  }

  lemma {:induction false} RangesTell(schedule: seq<Turn>)
    ensures AllUnderWay(schedule)
    ensures forall j :: 0 <= j < |Run(schedule).done| ==> Ended(schedule, Run(schedule).done[j])
  {
    hide Step, UnderWay, Ended;
    if schedule != [] {
      var n := |schedule| - 1;
      var rest, turn := schedule[..n], schedule[n];
      assert schedule == rest + [turn];
      RangesTell(rest);
      forall u | Active(Run(schedule), u)
        ensures Run(schedule).threads[u].start <= |schedule| && UnderWay(schedule, u)
      {
        UnderWayStays(rest, turn, u);
      }
      forall j | 0 <= j < |Run(schedule).done|
        ensures Ended(schedule, Run(schedule).done[j])
      {
        EndsAll(rest, turn, j);
      }
    }
  }

  /** The last that is heard is told by some turn, and no turn after it tells anything. */
  lemma {:induction false} LastHeard(schedule: seq<Turn>, t: Tid, start: nat, end: nat) returns (i: nat)
    requires end <= |schedule| && Heard(schedule, t, start, end) != []
    ensures var heard := Heard(schedule, t, start, end);
      start <= i < end && Said(schedule, t, i) == Some(heard[|heard| - 1]) && Heard(schedule, t, i + 1, end) == []
  {
    hide Said;
    if Said(schedule, t, end - 1).Some? {
      i := end - 1;
    } else {
      i := LastHeard(schedule, t, start, end - 1);
    }
  }

  lemma SaidIs(schedule: seq<Turn>, t: Tid, i: nat)
    requires i < |schedule| && Said(schedule, t, i).Some?
    ensures schedule[i].thread == t && Said(schedule, t, i).value.key == schedule[i].choice.key
    ensures Said(schedule, t, i).value.stop == schedule[i].choice.stop
  {
    hide Run;
  }

  /** What a turn tells is heard after what was heard before it, and before what is heard after it. */
  lemma {:induction false} HeardThere(schedule: seq<Turn>, t: Tid, start: nat, end: nat, i: nat)
    requires end <= |schedule| && start <= i < end && Said(schedule, t, i).Some?
    ensures Heard(schedule, t, start, end) ==
      Heard(schedule, t, start, i) + [Said(schedule, t, i).value] + Heard(schedule, t, i + 1, end)
  {
    hide Said;
    if end - 1 > i {
      HeardThere(schedule, t, start, end - 1, i);
    }
  }

  lemma StopIsLast(before: seq<Word>, word: Word, after: seq<Word>, visited: Contents, stopped: bool)
    requires Tells(before + [word] + after, visited, stopped) && word.stop
    ensures after == [] && stopped && word.key in visited
  {
    assert (before + [word] + after)[|before|] == word;
  }

  /** Under every schedule the callback of a finished Range was given just the mappings it visited, each key once;
      it asked to go on each time but perhaps the last, and the Range saw all exactly if it did so then too. */
  lemma RangeStops(schedule: seq<Turn>, j: nat)
    requires j < |Run(schedule).done| && Run(schedule).done[j].op.Range?
    ensures var call := Run(schedule).done[j];
      && call.answer.Visits? && call.end <= |schedule|
      && Tells(Heard(schedule, call.thread, call.start, call.end), call.answer.visited, !call.answer.all)
  {
    RangesTell(schedule);
    assert Ended(schedule, Run(schedule).done[j]);
  }

  /** So a Range that did not see all has a turn in which its callback asked to stop, and none that tells it more. */
  lemma StoppedOnce(schedule: seq<Turn>, j: nat) returns (i: nat)
    requires j < |Run(schedule).done| && Run(schedule).done[j].op.Range?
    requires Run(schedule).done[j].answer.Visits? && !Run(schedule).done[j].answer.all
    ensures var call := Run(schedule).done[j];
      && call.start <= i < call.end <= |schedule| && schedule[i].thread == call.thread && schedule[i].choice.stop
      && schedule[i].choice.key in call.answer.visited
      && Said(schedule, call.thread, i).Some? && Heard(schedule, call.thread, i + 1, call.end) == []
  {
    hide Run, Heard, Said;
    RangeStops(schedule, j);
    var call := Run(schedule).done[j];
    i := LastHeard(schedule, call.thread, call.start, call.end);
    SaidIs(schedule, call.thread, i);
  }

  /** And a turn in which the callback of a Range asks to stop is its last: the Range ends with that key,
      not having seen all. */
  lemma StopEnds(schedule: seq<Turn>, j: nat, i: nat)
    requires j < |Run(schedule).done| && Run(schedule).done[j].op.Range?
    requires var call := Run(schedule).done[j];
      call.start <= i < call.end && i < |schedule| && Said(schedule, call.thread, i).Some? && schedule[i].choice.stop
    ensures var call := Run(schedule).done[j];
      && call.answer.Visits? && !call.answer.all && call.end <= |schedule|
      && schedule[i].choice.key in call.answer.visited && Heard(schedule, call.thread, i + 1, call.end) == []
  {
    hide Run, Heard, Said, Tells;
    RangeStops(schedule, j);
    var call := Run(schedule).done[j];
    SaidIs(schedule, call.thread, i);
    HeardThere(schedule, call.thread, call.start, call.end, i);
    StopIsLast(Heard(schedule, call.thread, call.start, i), Said(schedule, call.thread, i).value,
               Heard(schedule, call.thread, i + 1, call.end), call.answer.visited, !call.answer.all);
  }
}
