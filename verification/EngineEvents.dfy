/**
 What each event and each tick does (engine/event.go, engine/worker.go, engine/connection.go), said by the
 numbers in the event and the state before it.
 */
module EngineEvents {
  import opened Options
  import opened Tallies
  import opened Engine
  import opened EngineTheorems

  // ---------------------------------------------------------------- which bytes are accounted for

  /** A connection is accounted for if it is a socket whose counterpart is known and not local. */
  predicate Remote(fdType: nat, info: Option<nat>, locals: set<nat>) {
    fdType == 1 && info.Some? && info.value !in locals
  }

  /** The size goes to what was sent for direction 0, to what was received for direction 1. */
  predicate Adds(t: Tally, t': Tally, direction: nat, size: nat, now: int) {
    t' == Tally(t.capacity, t.createdAt, Some(now), t.sent + (if direction == 0 then size else 0),
                t.received + (if direction == 1 then size else 0), t.marks)
  }

  /** A counter that has just been made. */
  function NewTally(now: int, g: Config): Tally {
    Tally(g.capacity, Some(now), Some(now), 0, 0, [])
  }

  /** Nothing else in the table of processes changes. */
  predicate OnlyProcess(s: State, s': State, pid: nat) {
    && pid in s'.processes && s'.processes.Keys == s.processes.Keys + {pid}
    && forall j :: j in s.processes && j != pid ==> s'.processes[j] == s.processes[j]
  }

  predicate OnlyConnection(p: Process, p': Process, fd: nat) {
    && p'.pid == p.pid && p'.known == p.known
    && fd in p'.connections && p'.connections.Keys == p.connections.Keys + {fd}
    && forall j :: j in p.connections && j != fd ==> p'.connections[j] == p.connections[j]
  }

  /** A descriptor that the process has a connection for: it is not looked up again, and the bytes count, for
      it and for the process, exactly if it is remote. */
  predicate KnownDescriptor(p: Process, p': Process, e: RWEvent, locals: set<nat>, locals': set<nat>, now: int)
    requires e.fd in p.connections
  {
    && OnlyConnection(p, p', e.fd) && locals' == locals
    && var c, c' := p.connections[e.fd], p'.connections[e.fd];
    && c'.fd == c.fd && c'.fdType == c.fdType && c'.info == c.info
    && if Remote(c.fdType, c.info, locals)
       then Adds(c.tally, c'.tally, e.direction, e.size, now) && Adds(p.tally, p'.tally, e.direction, e.size, now)
       else c'.tally == c.tally && p'.tally == p.tally
  }

  /** A descriptor that it has none for: it is looked up exactly if its type is 0 or 1, and the bytes count exactly
      if the lookup finds a connection that is not local. */
  predicate NewDescriptor(p: Process, p': Process, e: RWEvent, locals: set<nat>, locals': set<nat>,
                          now: int, g: Config) {
    && OnlyConnection(p, p', e.fd)
    && var looked, c' := e.fdType == 0 || e.fdType == 1, p'.connections[e.fd];
    && locals' == (if looked then e.locals else locals)
    && c'.fd == e.fd && c'.info == (if looked then e.found else None)
    && c'.fdType == (if looked && e.found.Some? then 1 else e.fdType)
    && if looked && e.found.Some? && e.found.value !in e.locals
       then
         && Adds(NewTally(now, g), c'.tally, e.direction, e.size, now)
         && Adds(p.tally, p'.tally, e.direction, e.size, now)
       else c'.tally == NewTally(now, g) && p'.tally == p.tally
  }

  predicate Takes(p: Process, p': Process, e: RWEvent, locals: set<nat>, locals': set<nat>, now: int, g: Config) {
    if e.fd in p.connections then KnownDescriptor(p, p', e, locals, locals', now)
    else NewDescriptor(p, p', e, locals, locals', now, g)
  }

  lemma TakesInKnown(p: Process, e: RWEvent, locals: set<nat>, clock: int, now: int, g: Config)
    requires ProcessOk(p, clock) && e.fd in p.connections
    ensures var (p', locals') := TakesIn(p, e, locals, now, g); KnownDescriptor(p, p', e, locals, locals', now)
  {
    hide ProcessOk;
    KnownConnection(p, e.fd, clock, true);
  }

  lemma TakesInNew(p: Process, e: RWEvent, locals: set<nat>, now: int, g: Config)
    requires e.fd !in p.connections && g.capacity >= 1
    ensures var (p', locals') := TakesIn(p, e, locals, now, g); NewDescriptor(p, p', e, locals, locals', now, g)
  {
  }

  lemma TakesInExactly(p: Process, e: RWEvent, locals: set<nat>, clock: int, now: int, g: Config)
    requires ProcessOk(p, clock) && g.capacity >= 1
    ensures var (p', locals') := TakesIn(p, e, locals, now, g); Takes(p, p', e, locals, locals', now, g)
  {
    hide TakesIn, KnownDescriptor, NewDescriptor, ProcessOk;
    if e.fd in p.connections {
      TakesInKnown(p, e, locals, clock, now, g);
    } else {
      TakesInNew(p, e, locals, now, g);
    }
  }

  // ---------------------------------------------------------------- every step

  lemma ProcessKept(s: State, e: RWEvent, clock: int, now: int, g: Config)
    requires AllOk(s, clock)
    ensures var p := ProcessFor(s, e, now, g);
      p == if e.pid in s.processes then s.processes[e.pid] else Process(e.pid, e.alive, map[], NewTally(now, g))
  {
  }

  lemma StateTakes(s: State, e: RWEvent, now: int, g: Config)
    requires AllOk(s, now) && g.capacity >= 1
    ensures var p := if e.pid in s.processes then s.processes[e.pid]
                     else Process(e.pid, e.alive, map[], NewTally(now, g));
      && ProcessFor(s, e, now, g) == p && ProcessOk(p, now)
      && (p.known ==>
            var (p', locals') := TakesIn(p, e, s.locals, now, g);
            Takes(p, p', e, s.locals, locals', now, g))
  {
    hide TakesIn, Takes;
    ProcessKept(s, e, now, now, g);
    FreshProcess(s, e, now, now, g);
    TakesInExactly(ProcessFor(s, e, now, g), e, s.locals, now, now, g);
    hide ProcessFor, ProcessOk;
  }

  lemma EventTakes(s: State, e: RWEvent, now: int, g: Config)
    ensures var p, s' := ProcessFor(s, e, now, g), After(s, ReadWrite(e, now), g);
      && OnlyProcess(s, s', e.pid)
      && (e.pid in s.processes && p == s.processes[e.pid] && !p.known ==> s' == s)
      && s'.processes[e.pid] == (if p.known then TakesIn(p, e, s.locals, now, g).0 else p)
      && s'.locals == (if p.known then TakesIn(p, e, s.locals, now, g).1 else s.locals)
  {
    hide TakesIn, ProcessFor;
    var p := ProcessFor(s, e, now, g);
    if e.pid in s.processes && p == s.processes[e.pid] {
      assert s.processes[e.pid := p] == s.processes;
    }
  }

  /** What a read or write event does after any run: nothing to a process that was not found when it was first seen;
      a process not seen before is found if it is alive, and has then no connection yet. */
  lemma EventExactly(steps: seq<Step>, e: RWEvent, now: int, g: Config)
    requires MayFollow(steps, now, g)
    ensures var s := Run(steps, g);
      var s' := After(s, ReadWrite(e, now), g);
      if e.pid in s.processes && !s.processes[e.pid].known then s' == s
      else
        && OnlyProcess(s, s', e.pid)
        && if e.pid in s.processes then
             Takes(s.processes[e.pid], s'.processes[e.pid], e, s.locals, s'.locals, now, g)
           else if e.alive then
             Takes(Process(e.pid, true, map[], NewTally(now, g)), s'.processes[e.pid], e, s.locals, s'.locals, now, g)
           else
             s'.processes[e.pid] == Process(e.pid, false, map[], NewTally(now, g)) && s'.locals == s.locals
  {
    hide TakesIn, Takes, ProcessFor, ProcessOk, AllOk, Run, After, OnlyProcess;
    RunOk(steps, now, g);
    StateTakes(Run(steps, g), e, now, g);
    EventTakes(Run(steps, g), e, now, g);
  }

  /** A snapshot is one mark more, of the totals at the time. */
  predicate Marks(t: Tally, t': Tally, now: int) {
    t' == t.(marks := t.marks + [Mark(now, t.sent, t.received)])
  }

  predicate Recent(t: Tally, now: int, timeout: int) {
    t.updatedAt.Some? && now - t.updatedAt.value <= timeout
  }

  predicate ConnectionTurns(c: Connection, c': Connection, locals: set<nat>, now: int) {
    && c'.fd == c.fd && c'.fdType == c.fdType && c'.info == c.info
    && if Remote(c.fdType, c.info, locals) then Marks(c.tally, c'.tally, now) else c'.tally == c.tally
  }

  /** What a tick does to a process that stays: a connection goes if it was last updated longer ago than the timeout,
      those that stay are snapshotted if they are remote, and the process is if one of them is. */
  ghost predicate ProcessTurns(p: Process, p': Process, locals: set<nat>, now: int, timeout: int) {
    && p'.pid == p.pid && p'.known == p.known
    && (forall fd :: fd in p'.connections <==> fd in p.connections && Recent(p.connections[fd].tally, now, timeout))
    && (forall fd :: fd in p'.connections ==> ConnectionTurns(p.connections[fd], p'.connections[fd], locals, now))
    && if exists fd :: fd in p'.connections && Remote(p'.connections[fd].fdType, p'.connections[fd].info, locals)
       then Marks(p.tally, p'.tally, now) else p'.tally == p.tally
  }

  lemma ProcessTurned(p: Process, locals: set<nat>, clock: int, now: int, g: Config)
    requires ProcessOk(p, clock)
    ensures ProcessTurns(p, ProcessTicked(p, locals, now, g), locals, now, g.timeout)
  {
    var p' := ProcessTicked(p, locals, now, g);
    forall fd | fd in p.connections
      ensures p.connections[fd].tally.capacity > 0 && p.connections[fd].tally.updatedAt.Some?
    {
      assert TallyOk(p.connections[fd].tally, clock);
    }
    assert forall fd :: fd in p'.connections ==>
      (Skipped(p'.connections[fd], locals) <==> !Remote(p'.connections[fd].fdType, p'.connections[fd].info, locals));
    hide TallyOk;
  }

  /** What a tick does after any run: a process goes if it was last updated longer ago than the timeout. */
  lemma TickDoes(steps: seq<Step>, now: int, g: Config)
    requires MayFollow(steps, now, g)
    ensures var s := Run(steps, g);
      var s' := After(s, Tick(now), g);
      && s'.locals == s.locals
      && (forall pid :: pid in s'.processes <==> pid in s.processes && Recent(s.processes[pid].tally, now, g.timeout))
      && (forall pid :: pid in s'.processes ==>
            ProcessTurns(s.processes[pid], s'.processes[pid], s.locals, now, g.timeout))
  {
    var s := Run(steps, g);
    RunOk(steps, now, g);
    forall pid | pid in s.processes
      ensures var p := s.processes[pid]; ProcessTurns(p, ProcessTicked(p, s.locals, now, g), s.locals, now, g.timeout)
      ensures s.processes[pid].tally.updatedAt.Some?
    {
      ProcessTurned(s.processes[pid], s.locals, now, now, g);
    }
    hide ProcessTurns, ProcessTicked, ProcessOk, Run;
  }

  /** A close takes exactly the connection of its descriptor from exactly its process, and its bytes stay counted. */
  lemma CloseDoes(s: State, pid: nat, fd: nat, now: int, g: Config)
    ensures var s' := After(s, Close(pid, fd, now), g);
      && s'.locals == s.locals && s'.processes.Keys == s.processes.Keys
      && forall j :: j in s.processes ==>
           && s'.processes[j].pid == s.processes[j].pid && s'.processes[j].known == s.processes[j].known
           && s'.processes[j].tally == s.processes[j].tally
           && (forall k :: k in s'.processes[j].connections <==>
                 k in s.processes[j].connections && !(j == pid && k == fd))
           && (forall k :: k in s'.processes[j].connections ==>
                 s'.processes[j].connections[k] == s.processes[j].connections[k])
  {
  }

  /** An exit takes its process away exactly if it is that of the main thread. */
  lemma ExitDoes(s: State, pid: nat, tid: nat, now: int, g: Config)
    ensures var s' := After(s, Exit(pid, tid, now), g);
      && s'.locals == s.locals
      && (forall j :: j in s'.processes <==> j in s.processes && !(j == pid && pid == tid))
      && forall j :: j in s'.processes ==> s'.processes[j] == s.processes[j]
  {
  }
}
