/**
 The kernel side (tracepoint/tracepoint.c) as a step system: each tracepoint handler is one
 step. Two bounded hash maps pair the entry of a system call, which knows the descriptor,
 with its exit, which knows the result.
 */
module Tracepoints {
  import opened Options
  import opened Wire

  const MAX_ENTRIES: nat := 65536
  const TWO_32: nat := 0x1_0000_0000
  const TWO_63: int := 0x8000_0000_0000_0000
  const TWO_64: nat := 0x1_0000_0000_0000_0000

  const FD_TYPE_SOCKET: nat := 1
  const FD_TYPE_FILE: nat := 2

  /** A thread: the low half of what bpf_get_current_pid_tgid answers is tid, the high half tgid. */
  datatype Thread = Thread(tgid: nat, tid: nat)

  function ThreadOf(current: nat): Thread
    requires current < TWO_64
  {
    Thread(current / TWO_32, current % TWO_32)
  }

  /** The handlers. arg is args[0] and ret the result of the system call; done says whether
      a map update succeeded, and sent whether the event reached the buffer. */
  datatype Step =
    | EnterCall(current: nat, arg: nat, done: bool)
    | ExitCall(current: nat, ret: int, direction: nat, sent: bool)
    | ExitOpen(current: nat, ret: int, fdType: nat, done: bool)
    | EnterClose(current: nat, arg: nat, sent: bool)
    | ProcessExit(current: nat, sent: bool)

  datatype State = State(fds: map<nat, nat>, types: map<(nat, nat), nat>, events: seq<Event>)

  const START: State := State(map[], map[], [])

  /** The low 32 bits. */
  function Low(n: int): nat {
    n % TWO_32
  }

  /** A result as a 32-bit number is negative. */
  predicate Failed(ret: int) {
    Low(ret) >= 0x8000_0000
  }

  predicate Typed(step: Step) {
    && step.current < TWO_64
    && match step
       case EnterCall(_, arg, _) => arg < TWO_64
       case ExitCall(_, ret, direction, _) => -TWO_63 <= ret < TWO_63 && direction < 2
       case ExitOpen(_, ret, fdType, _) =>
         -TWO_63 <= ret < TWO_63 && (fdType == FD_TYPE_SOCKET || fdType == FD_TYPE_FILE)
       case EnterClose(_, arg, _) => arg < TWO_64
       case ProcessExit(_, _) => true
  }

  /** An update succeeds only on a key that is there or in a map that is not full; it
      fails only for a key that is not there. */
  predicate MayUpdate<K, V>(m: map<K, V>, k: K, done: bool) {
    if done then k in m || |m| < MAX_ENTRIES else k !in m
  }

  predicate Enabled(s: State, step: Step) {
    && Typed(step)
    && match step
       case EnterCall(current, _, done) => MayUpdate(s.fds, ThreadOf(current).tid, done)
       case ExitOpen(current, ret, _, done) =>
         Failed(ret) || MayUpdate(s.types, (ThreadOf(current).tid, Low(ret)), done)
       case _ => true
  }

  // ---------------------------------------------------------------- handlers

  function Output(s: State, e: Event, sent: bool): State {
    if sent then s.(events := s.events + [e]) else s
  }

  function AfterEnterCall(s: State, t: Thread, arg: nat, done: bool): State {
    if done then s.(fds := s.fds[t.tid := Low(arg)]) else s
  }

  function AfterExitCall(s: State, t: Thread, ret: int, direction: nat, sent: bool): State {
    if t.tid !in s.fds then s
    else
      var fd := s.fds[t.tid];
      var s' := s.(fds := s.fds - {t.tid});
      if fd <= 2 || ret <= 0 then s'
      else
        var fdType := if (t.tid, fd) in s.types then s.types[(t.tid, fd)] else 0;
        if fdType == FD_TYPE_FILE then s' else Output(s', RW(t.tgid, t.tid, fd, fdType, direction, ret), sent)
  }

  function AfterExitOpen(s: State, t: Thread, ret: int, fdType: nat, done: bool): State {
    if Failed(ret) || !done then s else s.(types := s.types[(t.tid, Low(ret)) := fdType])
  }

  function AfterEnterClose(s: State, t: Thread, arg: nat, sent: bool): State {
    Output(s.(types := s.types - {(t.tid, Low(arg))}), Close(t.tgid, t.tid, Low(arg)), sent)
  }

  function After(s: State, step: Step): State
    requires Typed(step)
  {
    var t := ThreadOf(step.current);
    match step
    case EnterCall(_, arg, done) => AfterEnterCall(s, t, arg, done)
    case ExitCall(_, ret, direction, sent) => AfterExitCall(s, t, ret, direction, sent)
    case ExitOpen(_, ret, fdType, done) => AfterExitOpen(s, t, ret, fdType, done)
    case EnterClose(_, arg, sent) => AfterEnterClose(s, t, arg, sent)
    case ProcessExit(_, sent) => Output(s, Exit(t.tgid, t.tid), sent)
  }

  predicate AllTyped(steps: seq<Step>) {
    forall k :: 0 <= k < |steps| ==> Typed(steps[k])
  }

  function Run(steps: seq<Step>): State
    requires AllTyped(steps)
  {
    if steps == [] then START else After(Run(steps[..|steps| - 1]), steps[|steps| - 1])
  }

  /** Every update of the run behaves as the maps do. */
  predicate Possible(steps: seq<Step>) {
    AllTyped(steps) && forall k :: 0 <= k < |steps| ==> Enabled(Run(steps[..k]), steps[k])
  }

  // ---------------------------------------------------------------- what a run says by itself

  predicate By(step: Step, tid: nat) {
    step.current % TWO_32 == tid
  }

  /** The descriptor of the call that a thread is in: that of its latest entry, if that
      one was noted and there was no exit since. */
  function InCall(steps: seq<Step>, tid: nat): Option<nat> {
    if steps == [] then None
    else
      var step := steps[|steps| - 1];
      if !By(step, tid) then InCall(steps[..|steps| - 1], tid)
      else
        match step
        case EnterCall(_, arg, done) => if done then Some(Low(arg)) else None
        case ExitCall(_, _, _, _) => None
        case _ => InCall(steps[..|steps| - 1], tid)
  }

  /** The type that a thread last noted for a descriptor and has not closed since. */
  function TypeOf(steps: seq<Step>, tid: nat, fd: nat): nat {
    if steps == [] then 0
    else
      var step := steps[|steps| - 1];
      match step
      case ExitOpen(_, ret, fdType, true) =>
        if By(step, tid) && !Failed(ret) && Low(ret) == fd then fdType else TypeOf(steps[..|steps| - 1], tid, fd)
      case EnterClose(_, arg, _) =>
        if By(step, tid) && Low(arg) == fd then 0 else TypeOf(steps[..|steps| - 1], tid, fd)
      case _ => TypeOf(steps[..|steps| - 1], tid, fd)
  }

  // ---------------------------------------------------------------- the maps say the same

  ghost predicate MapsSay(s: State, steps: seq<Step>) {
    && (forall tid: nat :: InCall(steps, tid) == if tid in s.fds then Some(s.fds[tid]) else None)
    && (forall tid: nat, fd: nat :: TypeOf(steps, tid, fd) == if (tid, fd) in s.types then s.types[(tid, fd)] else 0)
  }

  lemma StepSays(s: State, steps: seq<Step>, step: Step)
    requires MapsSay(s, steps) && Enabled(s, step)
    ensures MapsSay(After(s, step), steps + [step])
  {
    assert (steps + [step])[..|steps|] == steps;
    var s', next := After(s, step), steps + [step];
    forall tid: nat
      ensures InCall(next, tid) == if tid in s'.fds then Some(s'.fds[tid]) else None
    {
      assert InCall(steps, tid) == if tid in s.fds then Some(s.fds[tid]) else None;
    }
    forall tid: nat, fd: nat
      ensures TypeOf(next, tid, fd) == if (tid, fd) in s'.types then s'.types[(tid, fd)] else 0
    {
      assert TypeOf(steps, tid, fd) == if (tid, fd) in s.types then s.types[(tid, fd)] else 0;
    }
  }

  lemma RestPossible(steps: seq<Step>)
    requires steps != [] && Possible(steps)
    ensures Possible(steps[..|steps| - 1]) && Enabled(Run(steps[..|steps| - 1]), steps[|steps| - 1])
  {
    var n := |steps| - 1;
    forall k | 0 <= k < n
      ensures steps[..n][..k] == steps[..k] && steps[..n][k] == steps[k]
    {
    }
  }

  /** In every run the maps hold what the steps of the threads say, and never overflow. */
  lemma {:induction false} RunSays(steps: seq<Step>)
    requires Possible(steps)
    ensures MapsSay(Run(steps), steps)
    ensures |Run(steps).fds| <= 65536 && |Run(steps).types| <= 65536
  {
    if steps != [] {
      var rest := steps[..|steps| - 1];
      RestPossible(steps);
      RunSays(rest);
      StepSays(Run(rest), rest, steps[|steps| - 1]);
      assert rest + [steps[|steps| - 1]] == steps;
      assert Run(steps).fds.Keys <= Run(rest).fds.Keys + {ThreadOf(steps[|steps| - 1].current).tid};
    }
  }

  // ---------------------------------------------------------------- events

  /** The event that an exit is to give, by the steps before it. */
  function Due(steps: seq<Step>, t: Thread, ret: int, direction: nat): Option<Event> {
    match InCall(steps, t.tid)
    case None => None
    case Some(fd) =>
      if fd <= 2 || ret <= 0 || TypeOf(steps, t.tid, fd) == FD_TYPE_FILE then None
      else Some(RW(t.tgid, t.tid, fd, TypeOf(steps, t.tid, fd), direction, ret))
  }

  /** An exit gives the event that the steps before it call for, and no other. */
  lemma ExitGives(steps: seq<Step>, current: nat, ret: int, direction: nat, sent: bool)
    requires Possible(steps) && Typed(ExitCall(current, ret, direction, sent))
    ensures var e := Due(steps, ThreadOf(current), ret, direction);
      After(Run(steps), ExitCall(current, ret, direction, sent)).events ==
        Run(steps).events + if sent && e.Some? then [e.value] else []
  {
    RunSays(steps);
    var s, t := Run(steps), ThreadOf(current);
    assert InCall(steps, t.tid) == if t.tid in s.fds then Some(s.fds[t.tid]) else None;
    if t.tid in s.fds {
      assert TypeOf(steps, t.tid, s.fds[t.tid]) ==
        if (t.tid, s.fds[t.tid]) in s.types then s.types[(t.tid, s.fds[t.tid])] else 0;
    }
    hide InCall, TypeOf, Run, MapsSay;
  }

  predicate EntersOrExits(step: Step, tid: nat) {
    (step.EnterCall? || step.ExitCall?) && By(step, tid)
  }

  /** Step j is the entry of the call that ends at i: the thread enters and exits nothing in between. */
  predicate EntryOf(steps: seq<Step>, tid: nat, fd: nat, j: nat, i: nat)
    requires i <= |steps|
  {
    && j < i && steps[j].EnterCall? && By(steps[j], tid) && steps[j].arg % 0x1_0000_0000 == fd && steps[j].done
    && forall k :: j < k < i ==> !EntersOrExits(steps[k], tid)
  }

  lemma {:induction false} InCallEntry(steps: seq<Step>, tid: nat) returns (j: nat)
    requires InCall(steps, tid).Some?
    ensures EntryOf(steps, tid, InCall(steps, tid).value, j, |steps|)
  {
    var n := |steps| - 1;
    if EntersOrExits(steps[n], tid) {
      j := n;
    } else {
      j := InCallEntry(steps[..n], tid);
      assert forall k :: j < k < n ==> steps[k] == steps[..n][k];
    }
  }

  /** The high half of what the step is told is the process, the low half the thread. */
  predicate Sender(step: Step, pid: nat, tid: nat) {
    step.current / 0x1_0000_0000 == pid && step.current % 0x1_0000_0000 == tid
  }

  /** Event e is the exit i of a call that the same thread entered at j, with the
      descriptor of that entry, the result of that exit, and the type then noted. */
  predicate Explains(steps: seq<Step>, e: Event, i: nat, j: nat)
    requires e.RW?
  {
    && i < |steps| && steps[i].ExitCall? && Typed(steps[i]) && Sender(steps[i], e.pid, e.tid)
    && e.size == steps[i].ret && e.direction == steps[i].direction
    && EntryOf(steps, e.tid, e.fd, j, i) && e.fdType == TypeOf(steps[..i], e.tid, e.fd)
  }

  ghost predicate Explained(steps: seq<Step>, e: Event) {
    e.RW? ==>
      && e.fd > 2 && 0 < e.size < TWO_63 && e.fdType != FD_TYPE_FILE
      && exists i: nat, j: nat :: Explains(steps, e, i, j)
  }

  /** Event e is what step i gave; if it is a read or write event, the call was entered at j. */
  predicate StemsFrom(steps: seq<Step>, e: Event, i: nat, j: nat) {
    && i < |steps| && steps[i].current < TWO_64
    && match e
       case RW(_, _, fd, fdType, _, size) =>
         Explains(steps, e, i, j) && steps[i].sent && fd > 2 && 0 < size < TWO_63 && fdType != FD_TYPE_FILE
       case Close(pid, tid, fd) =>
         && steps[i].EnterClose? && steps[i].sent
         && Sender(steps[i], pid, tid) && steps[i].arg % 0x1_0000_0000 == fd
       case Exit(pid, tid) => steps[i].ProcessExit? && steps[i].sent && Sender(steps[i], pid, tid)
  }

  lemma StemsStays(steps: seq<Step>, step: Step, e: Event, i: nat, j: nat)
    requires StemsFrom(steps, e, i, j)
    ensures StemsFrom(steps + [step], e, i, j)
  {
    assert (steps + [step])[..i] == steps[..i];
  }

  /** The event, if any, that the last step of a run gives. */
  lemma LastStems(steps: seq<Step>, step: Step) returns (j: nat)
    requires Possible(steps) && Enabled(Run(steps), step)
    ensures var was, events := Run(steps).events, After(Run(steps), step).events;
      events == was || (|events| == |was| + 1 && events[..|was|] == was
                        && StemsFrom(steps + [step], events[|was|], |steps|, j))
  {
    j := 0;
    if step.ExitCall? {
      var t := ThreadOf(step.current);
      ExitGives(steps, step.current, step.ret, step.direction, step.sent);
      if Due(steps, t, step.ret, step.direction).Some? {
        j := InCallEntry(steps, t.tid);
        assert (steps + [step])[..|steps|] == steps;
        assert EntryOf(steps + [step], t.tid, InCall(steps, t.tid).value, j, |steps|);
      }
      hide InCall, TypeOf, Run, After, Possible;
    }
  }

  /** Two exits of one run are not of one entry. */
  lemma EntriesDiffer(steps: seq<Step>, e: Event, i: nat, j: nat, e': Event, i': nat, j': nat)
    requires e.RW? && e'.RW? && Explains(steps, e, i, j) && Explains(steps, e', i', j') && i < i'
    ensures j != j'
  {
    if j == j' {
      assert EntersOrExits(steps[i], e.tid) && e.tid == e'.tid;
    }
  }

  /** Every event stems from a step of its own, in the order of the steps, and no two
      read or write events from one entry. */
  predicate Sourced(steps: seq<Step>, events: seq<Event>, givers: seq<nat>, entries: seq<nat>) {
    && |givers| == |entries| == |events|
    && (forall k :: 0 <= k < |events| ==> StemsFrom(steps, events[k], givers[k], entries[k]))
    && (forall k, l :: 0 <= k < l < |events| ==> givers[k] < givers[l])
    && (forall k, l :: 0 <= k < l < |events| && events[k].RW? && events[l].RW? ==> entries[k] != entries[l])
  }

  lemma SourcedLonger(steps: seq<Step>, step: Step, events: seq<Event>, givers: seq<nat>, entries: seq<nat>)
    requires Sourced(steps, events, givers, entries)
    ensures Sourced(steps + [step], events, givers, entries)
  {
    forall k | 0 <= k < |events|
      ensures StemsFrom(steps + [step], events[k], givers[k], entries[k])
    {
      StemsStays(steps, step, events[k], givers[k], entries[k]);
    }
    hide StemsFrom;
  }

  lemma SourcedMore(steps: seq<Step>, events: seq<Event>, givers: seq<nat>, entries: seq<nat>, e: Event, i: nat, j: nat)
    requires Sourced(steps, events, givers, entries) && StemsFrom(steps, e, i, j)
    requires forall k :: 0 <= k < |events| ==> givers[k] < i
    ensures Sourced(steps, events + [e], givers + [i], entries + [j])
  {
    forall k | 0 <= k < |events| && events[k].RW? && e.RW?
      ensures entries[k] != j
    {
      EntriesDiffer(steps, events[k], givers[k], entries[k], e, i, j);
    }
    hide StemsFrom;
  }

  lemma SourcesEarlier(steps: seq<Step>, events: seq<Event>, givers: seq<nat>, entries: seq<nat>)
    requires Sourced(steps, events, givers, entries)
    ensures forall k :: 0 <= k < |events| ==> givers[k] < |steps|
  {
    assert forall k :: 0 <= k < |events| ==> StemsFrom(steps, events[k], givers[k], entries[k]);
  }

  /** In every run read and write events at different places stem from different exits and different entries. */
  lemma {:induction false} EventSources(steps: seq<Step>) returns (givers: seq<nat>, entries: seq<nat>)
    requires Possible(steps)
    ensures Sourced(steps, Run(steps).events, givers, entries)
  {
    hide After, StemsFrom, Enabled;
    givers, entries := [], [];
    if steps != [] {
      var n := |steps| - 1;
      var rest, step := steps[..n], steps[n];
      RestPossible(steps);
      givers, entries := EventSources(rest);
      var j := LastStems(rest, step);
      assert steps == rest + [step];
      var was, events := Run(rest).events, Run(steps).events;
      SourcedLonger(rest, step, was, givers, entries);
      if events != was {
        SourcesEarlier(rest, was, givers, entries);
        SourcedMore(steps, was, givers, entries, events[|was|], n, j);
        assert events == was + [events[|was|]];
        givers, entries := givers + [n], entries + [j];
      }
      hide Sourced;
    }
  }

  /** Every read or write event of a run: a descriptor above 2, a positive result, never of
      type file, and the call it stems from, entered and left by one thread. */
  lemma EventsExplained(steps: seq<Step>)
    requires Possible(steps)
    ensures forall e :: e in Run(steps).events ==> Explained(steps, e)
  {
    var givers, entries := EventSources(steps);
    forall e | e in Run(steps).events && e.RW?
      ensures Explained(steps, e)
    {
      var k :| 0 <= k < |givers| && Run(steps).events[k] == e;
      assert StemsFrom(steps, e, givers[k], entries[k]);
    }
  }

  // ---------------------------------------------------------------- every step in numbers

  /** What a step gives, by the numbers it is told and the steps before it. */
  function Gives(before: seq<Step>, step: Step): seq<Event> {
    var pid, tid := step.current / 0x1_0000_0000, step.current % 0x1_0000_0000;
    match step
    case ExitCall(_, ret, direction, true) =>
      if InCall(before, tid).None? then []
      else
        var fd := InCall(before, tid).value;
        if fd > 2 && ret > 0 && TypeOf(before, tid, fd) != 2
        then [RW(pid, tid, fd, TypeOf(before, tid, fd), direction, ret)] else []
    case EnterClose(_, arg, true) => [Close(pid, tid, arg % 0x1_0000_0000)]
    case ProcessExit(_, true) => [Exit(pid, tid)]
    case _ => []
  }

  lemma StepGives(steps: seq<Step>, step: Step)
    requires Possible(steps) && Typed(step)
    ensures After(Run(steps), step).events == Run(steps).events + Gives(steps, step)
  {
    if step.ExitCall? {
      ExitGives(steps, step.current, step.ret, step.direction, step.sent);
      hide InCall, TypeOf, Run, After, Possible;
    }
  }

  function AllGiven(steps: seq<Step>): seq<Event> {
    if steps == [] then []
    else AllGiven(steps[..|steps| - 1]) + Gives(steps[..|steps| - 1], steps[|steps| - 1])
  }

  /** The events of a run are what its steps give, one after the other: none is missing and none is added. */
  lemma {:induction false} RunGives(steps: seq<Step>)
    requires Possible(steps)
    ensures Run(steps).events == AllGiven(steps)
  {
    hide Gives, After, Enabled;
    if steps != [] {
      RestPossible(steps);
      RunGives(steps[..|steps| - 1]);
      StepGives(steps[..|steps| - 1], steps[|steps| - 1]);
    }
  }

  /** The type noted for a thread and a descriptor, 0 if there is none. */
  function Noted(s: State, tid: nat, fd: nat): nat {
    if (tid, fd) in s.types then s.types[(tid, fd)] else 0
  }

  /** What each step does to the two maps, and what it gives. */
  lemma StepNotes(s: State, step: Step)
    requires Typed(step)
    ensures var pid, tid, s' := step.current / 0x1_0000_0000, step.current % 0x1_0000_0000, After(s, step);
      match step
      case EnterCall(_, arg, done) =>
        && s'.fds == (if done then s.fds[tid := arg % 0x1_0000_0000] else s.fds)
        && s'.types == s.types && s'.events == s.events
      case ExitCall(_, ret, direction, sent) =>
        && s'.fds == s.fds - {tid} && s'.types == s.types
        && s'.events == s.events +
             if sent && tid in s.fds && s.fds[tid] > 2 && ret > 0 && Noted(s, tid, s.fds[tid]) != 2
             then [RW(pid, tid, s.fds[tid], Noted(s, tid, s.fds[tid]), direction, ret)] else []
      case ExitOpen(_, ret, fdType, done) =>
        && s'.types == (if done && ret % 0x1_0000_0000 < 0x8000_0000
                        then s.types[(tid, ret % 0x1_0000_0000) := fdType] else s.types)
        && s'.fds == s.fds && s'.events == s.events
      case EnterClose(_, arg, sent) =>
        && s'.types == s.types - {(tid, arg % 0x1_0000_0000)} && s'.fds == s.fds
        && s'.events == s.events + if sent then [Close(pid, tid, arg % 0x1_0000_0000)] else []
      case ProcessExit(_, sent) =>
        && s'.fds == s.fds && s'.types == s.types
        && s'.events == s.events + if sent then [Exit(pid, tid)] else []
  {
    if step.ExitCall? && step.current % 0x1_0000_0000 !in s.fds {
      assert s.fds - {step.current % 0x1_0000_0000} == s.fds;
    }
  }

  // ---------------------------------------------------------------- at most one event for an entry

  function Events(events: seq<Event>, tid: nat): nat {
    if events == [] then 0
    else
      var e := events[|events| - 1];
      Events(events[..|events| - 1], tid) + if e.RW? && e.tid == tid then 1 else 0
  }

  function Entries(steps: seq<Step>, tid: nat): nat {
    if steps == [] then 0
    else
      var step := steps[|steps| - 1];
      Entries(steps[..|steps| - 1], tid) + if step.EnterCall? && step.done && By(step, tid) then 1 else 0
  }

  /** A step gives one event of a thread at most, and only an exit of a noted call gives one. */
  lemma EventsGrow(s: State, step: Step, tid: nat)
    requires Typed(step)
    ensures Events(After(s, step).events, tid) <=
      Events(s.events, tid) + if step.ExitCall? && By(step, tid) && tid in s.fds then 1 else 0
  {
    var events := After(s, step).events;
    if events != s.events {
      assert events[..|events| - 1] == s.events;
    }
  }

  lemma NotedSays(steps: seq<Step>, tid: nat)
    requires Possible(steps)
    ensures InCall(steps, tid).Some? <==> tid in Run(steps).fds
  {
    hide InCall, TypeOf, Run, Possible;
    RunSays(steps);
  }

  /** A thread has given no more events than it has noted entries, not counting the call it is in. */
  lemma {:induction false} OneEventPerEntry(steps: seq<Step>, tid: nat)
    requires Possible(steps)
    ensures Events(Run(steps).events, tid) + (if InCall(steps, tid).Some? then 1 else 0) <= Entries(steps, tid)
  {
    hide After, MapsSay, Enabled;
    if steps != [] {
      var n := |steps| - 1;
      var rest, step := steps[..n], steps[n];
      RestPossible(steps);
      OneEventPerEntry(rest, tid);
      NotedSays(rest, tid);
      EventsGrow(Run(rest), step, tid);
    }
  }

  // ---------------------------------------------------------------- events as bytes

  lemma {:induction false} TypesFit(steps: seq<Step>)
    requires Possible(steps)
    ensures forall k :: k in Run(steps).types ==> Run(steps).types[k] < 256
    ensures forall k :: k in Run(steps).fds ==> Run(steps).fds[k] < TWO_32
  {
    if steps != [] {
      RestPossible(steps);
      TypesFit(steps[..|steps| - 1]);
    }
  }

  lemma StepFits(s: State, step: Step)
    requires Typed(step) && forall e :: e in s.events ==> Fits(e)
    requires forall k :: k in s.types ==> s.types[k] < 256
    requires forall k :: k in s.fds ==> s.fds[k] < TWO_32
    ensures forall e :: e in After(s, step).events ==> Fits(e)
  {
    Spans();
  }

  /** Every event of a run fits its struct, so that whatever padding follows it, the
      sample made of it means that event to the engine. */
  lemma {:induction false} EventsFit(steps: seq<Step>)
    requires Possible(steps)
    ensures forall e :: e in Run(steps).events ==> Fits(e)
  {
    hide Fits, After, Enabled;
    if steps != [] {
      var n := |steps| - 1;
      var rest, step := steps[..n], steps[n];
      RestPossible(steps);
      EventsFit(rest);
      TypesFit(rest);
      StepFits(Run(rest), step);
    }
  }

  lemma EventsArrive(steps: seq<Step>, e: Event, little: bool, padding: seq<Byte>)
    requires Possible(steps) && e in Run(steps).events
    ensures Meaning(Encode(e, little) + padding, little) == Some(e)
  {
    EventsFit(steps);
    RoundTrip(e, little, padding);
  }

  // ---------------------------------------------------------------- the maps, updated in place

  class Kernel {
    var pidFids: map<nat, nat>
    var pfidTypes: map<(nat, nat), nat>
    var bpEvents: seq<Event>

    ghost function Value(): State
      reads this
    {
      State(pidFids, pfidTypes, bpEvents)
    }

    constructor ()
      ensures Value() == START
    {
      pidFids, pfidTypes, bpEvents := map[], map[], [];
    }

    method Emit(e: Event, sent: bool)
      modifies this`bpEvents
      ensures Value() == Output(old(Value()), e, sent)
    {
      if sent {
        bpEvents := bpEvents + [e];
      }
    }

    method SaveFdWithPid(current: nat, arg: nat, done: bool)
      requires Enabled(Value(), EnterCall(current, arg, done))
      modifies this`pidFids
      ensures Value() == After(old(Value()), EnterCall(current, arg, done))
    {
      var pid, fd := current % TWO_32, arg % TWO_32;
      if done {
        pidFids := pidFids[pid := fd];
      }
    }

    method SaveFdTypeWithPfid(current: nat, ret: int, fdType: nat, done: bool)
      requires Enabled(Value(), ExitOpen(current, ret, fdType, done))
      modifies this`pfidTypes
      ensures Value() == After(old(Value()), ExitOpen(current, ret, fdType, done))
    {
      var pid := current % TWO_32;
      if Failed(ret) {
        return;
      }
      var fd := Low(ret);
      if done {
        pfidTypes := pfidTypes[(pid, fd) := fdType];
      }
    }

    method GenRWEvent(current: nat, ret: int, direction: nat, sent: bool)
      requires Enabled(Value(), ExitCall(current, ret, direction, sent))
      modifies this`pidFids, this`bpEvents
      ensures Value() == After(old(Value()), ExitCall(current, ret, direction, sent))
    {
      var tgid, pid := current / TWO_32, current % TWO_32;
      if pid !in pidFids {
        return;
      }
      var fd := pidFids[pid];
      pidFids := pidFids - {pid};
      if fd <= 2 {
        return;
      }
      if ret <= 0 {
        return;
      }
      var fdt := 0;
      if (pid, fd) in pfidTypes {
        fdt := pfidTypes[(pid, fd)];
      }
      if fdt == FD_TYPE_FILE {
        return;
      }
      Emit(RW(tgid, pid, fd, fdt, direction, ret), sent);
    }

    method EnterCloseCall(current: nat, arg: nat, sent: bool)
      requires Enabled(Value(), EnterClose(current, arg, sent))
      modifies this`pfidTypes, this`bpEvents
      ensures Value() == After(old(Value()), EnterClose(current, arg, sent))
    {
      var tgid, pid, fd := current / TWO_32, current % TWO_32, arg % TWO_32;
      pfidTypes := pfidTypes - {(pid, fd)};
      Emit(Close(tgid, pid, fd), sent);
    }

    method GenExitEvent(current: nat, sent: bool)
      requires Enabled(Value(), ProcessExit(current, sent))
      modifies this`bpEvents
      ensures Value() == After(old(Value()), ProcessExit(current, sent))
    {
      Emit(Exit(current / TWO_32, current % TWO_32), sent);
    }

    method Handle(step: Step)
      requires Enabled(Value(), step)
      modifies this
      ensures Value() == After(old(Value()), step)
    {
      match step {
        case EnterCall(current, arg, done) => SaveFdWithPid(current, arg, done);
        case ExitCall(current, ret, direction, sent) => GenRWEvent(current, ret, direction, sent);
        case ExitOpen(current, ret, fdType, done) => SaveFdTypeWithPfid(current, ret, fdType, done);
        case EnterClose(current, arg, sent) => EnterCloseCall(current, arg, sent);
        case ProcessExit(current, sent) => GenExitEvent(current, sent);
      }
    }
  }
}
