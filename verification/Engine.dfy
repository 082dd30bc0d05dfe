/**
 The accounting engine as a step system (engine/event.go, engine/worker.go): each event and
 each tick is one step, at the time its clock reads. What the system reports is input:
 whether a process can be looked up, and which connection a descriptor belongs to.
 */
module Engine {
  import opened Options
  import opened Tallies

  const UNKNOWN: nat := 0
  const SOCKET: nat := 1

  /** info is the identity of the ConnectionInfo object; those of several connections may be one object. */
  datatype Connection = Connection(fd: nat, fdType: nat, info: Option<nat>, tally: Tally)

  /** known: the process was found when it was first looked up. */
  datatype Process = Process(pid: nat, known: bool, connections: map<nat, Connection>, tally: Tally)

  /** locals are the ConnectionInfo objects whose IsLocal is true at the moment. */
  datatype State = State(processes: map<nat, Process>, locals: set<nat>)

  datatype Config = Config(capacity: nat, timeout: int)

  /** found and locals answer a lookup, if the event makes one: the connection of the
      descriptor, and which connections are local once the lookup has refreshed them. */
  datatype RWEvent = RWEvent(pid: nat, fd: nat, fdType: nat, direction: nat, size: nat,
                             alive: bool, found: Option<nat>, locals: set<nat>)

  datatype Step =
    | ReadWrite(e: RWEvent, now: int)
    | Close(pid: nat, fd: nat, now: int)
    | Exit(pid: nat, tid: nat, now: int)
    | Tick(now: int)

  predicate Skipped(c: Connection, locals: set<nat>) {
    c.fdType != SOCKET || c.info == None || c.info.value in locals
  }

  // ---------------------------------------------------------------- steps

  function ProcessFor(s: State, e: RWEvent, now: int, g: Config): Process {
    var p := if e.pid in s.processes then s.processes[e.pid] else Process(e.pid, false, map[], FRESH);
    if p.tally.capacity > 0 then p else p.(known := e.alive, tally := Begun(p.tally, g.capacity, now))
  }

  /** The connection the event is about, and whether this is its first event. */
  function ConnectionFor(p: Process, e: RWEvent): (Connection, bool) {
    var c := if e.fd in p.connections then p.connections[e.fd] else Connection(e.fd, e.fdType, None, FRESH);
    (c, c.tally.capacity == 0)
  }

  predicate LooksUp(c: Connection, first: bool) {
    first && (c.fdType == UNKNOWN || c.fdType == SOCKET)
  }

  function Opened(c: Connection, first: bool, e: RWEvent, now: int, g: Config): Connection {
    if !first then c
    else
      var begun := c.(tally := Begun(c.tally, g.capacity, now));
      if LooksUp(c, first) && e.found.Some? then begun.(fd := e.fd, fdType := SOCKET, info := e.found) else begun
  }

  /** A known process takes the event in; the lookup of a new connection refreshes which are local. */
  function TakesIn(p: Process, e: RWEvent, locals: set<nat>, now: int, g: Config): (Process, set<nat>) {
    var (c, first) := ConnectionFor(p, e);
    var begun := Opened(c, first, e, now, g);
    var refreshed := if LooksUp(c, first) then e.locals else locals;
    if Skipped(begun, refreshed) then
      (p.(connections := p.connections[e.fd := begun]), refreshed)
    else
      var added := begun.(tally := Added(begun.tally, e.direction, e.size, now));
      (p.(connections := p.connections[e.fd := added], tally := Added(p.tally, e.direction, e.size, now)), refreshed)
  }

  function AfterReadWrite(s: State, e: RWEvent, now: int, g: Config): State {
    var p := ProcessFor(s, e, now, g);
    if !p.known then s.(processes := s.processes[e.pid := p])
    else
      var (p', locals) := TakesIn(p, e, s.locals, now, g);
      State(s.processes[e.pid := p'], locals)
  }

  function AfterClose(s: State, pid: nat, fd: nat): State {
    if pid in s.processes then
      var p := s.processes[pid];
      s.(processes := s.processes[pid := p.(connections := p.connections - {fd})])
    else s
  }

  function AfterExit(s: State, pid: nat, tid: nat): State {
    if pid != tid then s else s.(processes := s.processes - {pid})
  }

  function ConnectionTicked(c: Connection, locals: set<nat>, now: int): Connection {
    if Skipped(c, locals) then c else c.(tally := Snapped(c.tally, now))
  }

  function ConnectionsTicked(m: map<nat, Connection>, locals: set<nat>, now: int, g: Config): map<nat, Connection> {
    map fd | fd in m && !Idle(m[fd].tally, now, g.timeout) :: ConnectionTicked(m[fd], locals, now)
  }

  /** Some connection is accounted for. */
  predicate Accounted(m: map<nat, Connection>, locals: set<nat>) {
    exists fd :: fd in m && !Skipped(m[fd], locals)
  }

  function ProcessTicked(p: Process, locals: set<nat>, now: int, g: Config): Process {
    var m := ConnectionsTicked(p.connections, locals, now, g);
    p.(connections := m, tally := if Accounted(m, locals) then Snapped(p.tally, now) else p.tally)
  }

  function AfterTick(s: State, now: int, g: Config): State {
    s.(processes := map pid | pid in s.processes && !Idle(s.processes[pid].tally, now, g.timeout) ::
         ProcessTicked(s.processes[pid], s.locals, now, g))
  }

  function After(s: State, step: Step, g: Config): State {
    match step
    case ReadWrite(e, now) => AfterReadWrite(s, e, now, g)
    case Close(pid, fd, _) => AfterClose(s, pid, fd)
    case Exit(pid, tid, _) => AfterExit(s, pid, tid)
    case Tick(now) => AfterTick(s, now, g)
  }

  const START: State := State(map[], {})

  function Run(steps: seq<Step>, g: Config): State {
    if steps == [] then START else After(Run(steps[..|steps| - 1], g), steps[|steps| - 1], g)
  }

  /** The clock never runs backwards. */
  predicate Clocked(steps: seq<Step>) {
    forall k :: 0 <= k < |steps| - 1 ==> steps[k].now <= steps[k + 1].now
  }
}
