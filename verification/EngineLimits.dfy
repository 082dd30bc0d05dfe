/**
 Runs that show where the guarantees of EngineTheorems end: a lookup that rewrites whether a
 connection is local while the connection is in the table, and a window in which a process gets
 2^64 bytes or more. Times are in milliseconds, ticks come every second, and the sizes of events
 are results of system calls, from 1 to 2^63 - 1.
 */
module EngineLimits {
  import opened Options
  import opened Tallies
  import opened Engine
  import opened EngineTheorems

  const SNAPSHOTS: nat := 30
  const MAX_SIZE: nat := 0x7FFF_FFFF_FFFF_FFFF

  /** The default settings, and ones with a short idle time. */
  const USUAL: Config := Config(SNAPSHOTS, 10_000)
  const BRIEF: Config := Config(SNAPSHOTS, 500)

  /** An outgoing event of process 1. */
  function Sends(fd: nat, size: nat, found: Option<nat>, locals: set<nat>, now: int): Step {
    ReadWrite(RWEvent(1, fd, SOCKET, OUTGOING, size, true, found, locals), now)
  }

  function Sent(since: int, updated: int, sent: nat, marks: seq<Mark>): Tally {
    Tally(SNAPSHOTS, Some(since), Some(updated), sent, 0, marks)
  }

  function Only(m: map<nat, Connection>, t: Tally, locals: set<nat>): State {
    State(map[1 := Process(1, true, m, t)], locals)
  }

  /** Events carry at least one byte, at most 2^63 - 1, and a second or more lies between ticks. */
  predicate Real(steps: seq<Step>) {
    && Clocked(steps)
    && (forall k :: 0 <= k < |steps| && steps[k].ReadWrite? ==> 1 <= steps[k].e.size <= MAX_SIZE)
    && (forall i, j :: 0 <= i < j < |steps| && steps[i].Tick? && steps[j].Tick? ==> steps[i].now + 1000 <= steps[j].now)
  }

  /** One step more. */
  lemma Then(steps: seq<Step>, step: Step, g: Config) returns (next: seq<Step>)
    requires Real(steps) && (steps != [] ==> Clock(steps) <= step.now)
    requires step.ReadWrite? ==> 1 <= step.e.size <= MAX_SIZE
    requires step.Tick? ==> forall i :: 0 <= i < |steps| && steps[i].Tick? ==> steps[i].now + 1000 <= step.now
    ensures next == steps + [step] && Run(next, g) == After(Run(steps, g), step, g)
    ensures step.Tick? ==> Run(next, g) == AfterTick(Run(steps, g), step.now, g)
    ensures Real(next) && Clock(next) == step.now
  {
    next := steps + [step];
    assert next[..|steps|] == steps;
    hide After;
  }

  predicate AllTicksBy(steps: seq<Step>, t: int) {
    forall i :: 0 <= i < |steps| && steps[i].Tick? ==> steps[i].now <= t
  }

  lemma ThenSends(steps: seq<Step>, fd: nat, size: nat, found: Option<nat>, locals: set<nat>, now: int, g: Config)
    returns (next: seq<Step>)
    requires Real(steps) && (steps != [] ==> Clock(steps) <= now) && 1 <= size <= MAX_SIZE
    ensures next == steps + [Sends(fd, size, found, locals, now)] && Real(next) && Clock(next) == now
    ensures Run(next, g) == After(Run(steps, g), Sends(fd, size, found, locals, now), g)
    ensures forall t :: AllTicksBy(steps, t) ==> AllTicksBy(next, t)
  {
    next := Then(steps, Sends(fd, size, found, locals, now), g);
    hide Real, Run, After, Clock;
  }

  lemma ThenTicks(steps: seq<Step>, now: int, before: int, g: Config) returns (next: seq<Step>)
    requires Real(steps) && (steps != [] ==> Clock(steps) <= now) && AllTicksBy(steps, before) && before + 1000 <= now
    ensures next == steps + [Tick(now)] && Real(next) && Clock(next) == now
    ensures Run(next, g) == AfterTick(Run(steps, g), now, g) && AllTicksBy(next, now)
  {
    next := Then(steps, Tick(now), g);
    hide Real, Run, AfterTick, After, Clock;
  }

  lemma NoSteps(g: Config, t: int)
    ensures Real([]) && AllTicksBy([], t) && Run([], g) == START
  {
  }

  /** A tick of a table with one process that is not idle, as no connection of it is. */
  lemma TickOnly(m: map<nat, Connection>, t: Tally, locals: set<nat>, now: int, m': map<nat, Connection>,
                 g: Config, w: nat)
    requires t.capacity > 0 && !Idle(t, now, g.timeout)
    requires m'.Keys == m.Keys && forall fd :: fd in m ==>
      !Idle(m[fd].tally, now, g.timeout) && m'[fd] == ConnectionTicked(m[fd], locals, now)
    requires w in m' && !Skipped(m'[w], locals)
    ensures AfterTick(Only(m, t, locals), now, g)
      == Only(m', t.(marks := t.marks + [Mark(now, t.sent, t.received)]), locals)
  {
    var s' := AfterTick(Only(m, t, locals), now, g);
    assert s'.processes.Keys == {1};
    assert ConnectionsTicked(m, locals, now, g) == m';
    assert Accounted(m', locals);
  }

  /** More bytes of a connection that is accounted for. */
  lemma SendMore(m: map<nat, Connection>, t: Tally, locals: set<nat>, fd: nat, size: nat, now: int, g: Config)
    requires fd in m && m[fd].tally.capacity > 0 && t.capacity > 0 && !Skipped(m[fd], locals)
    ensures After(Only(m, t, locals), Sends(fd, size, None, {}, now), g)
      == Only(m[fd := m[fd].(tally := Added(m[fd].tally, OUTGOING, size, now))], Added(t, OUTGOING, size, now), locals)
  {
    var s' := After(Only(m, t, locals), Sends(fd, size, None, {}, now), g);
    assert s'.processes.Keys == {1};
  }

  /** The first event of a connection that is accounted for. */
  lemma SendFirst(m: map<nat, Connection>, t: Tally, locals: set<nat>, fd: nat, size: nat, info: nat,
                  locals': set<nat>, now: int, g: Config)
    requires fd !in m && t.capacity > 0 && g.capacity == SNAPSHOTS && info !in locals'
    ensures After(Only(m, t, locals), Sends(fd, size, Some(info), locals', now), g)
      == Only(m[fd := Connection(fd, SOCKET, Some(info), Sent(now, now, size, []))],
              Added(t, OUTGOING, size, now), locals')
  {
    var s' := After(Only(m, t, locals), Sends(fd, size, Some(info), locals', now), g);
    assert s'.processes.Keys == {1};
  }

  /** The first event of a connection that is skipped. */
  lemma SendSkipped(m: map<nat, Connection>, t: Tally, locals: set<nat>, fd: nat, size: nat, found: Option<nat>,
                    locals': set<nat>, now: int, g: Config)
    requires fd !in m && t.capacity > 0 && g.capacity == SNAPSHOTS && (found == None || found.value in locals')
    ensures After(Only(m, t, locals), Sends(fd, size, found, locals', now), g)
      == Only(m[fd := Connection(fd, SOCKET, found, Sent(now, now, 0, []))], t, locals')
  {
    var s' := After(Only(m, t, locals), Sends(fd, size, found, locals', now), g);
    assert s'.processes.Keys == {1};
  }

  /** The first event of all. */
  lemma SendStart(fd: nat, size: nat, info: nat, now: int, g: Config)
    requires g.capacity == SNAPSHOTS
    ensures After(START, Sends(fd, size, Some(info), {}, now), g)
      == Only(map[fd := Connection(fd, SOCKET, Some(info), Sent(now, now, size, []))], Sent(now, now, size, []), {})
  {
    var s' := After(START, Sends(fd, size, Some(info), {}, now), g);
    assert s'.processes.Keys == {1};
  }

  lemma {:induction false} TotalAtLeast(m: map<nat, nat>, k: nat)
    requires k in m
    ensures Total(m) >= m[k]
  {
    TotalPick(m, k);
  }

  /** What is recorded is the difference of the last two totals, as words. */
  lemma RecordedLast(t: Tally, a: nat, b: nat)
    requires |t.marks| >= 2 && t.marks[|t.marks| - 2].sent == a && t.marks[|t.marks| - 1].sent == b
    ensures Recorded(t, true) == Growth(a, b)
  {
    hide Growth;
  }

  // ---------------------------------------------------------------- made local and back

  /** Connections 3, 4 and 5 of the run below before its last tick; no socket was found for the last. */
  const THREE: Connection := Connection(3, SOCKET, Some(10), Sent(100, 1100, 8, [Mark(1000, 1, 0)]))
  const FOUR: Connection := Connection(4, SOCKET, Some(11), Sent(1200, 1200, 1, [Mark(2000, 1, 0)]))
  const FIVE: Connection := Connection(5, SOCKET, None, Sent(2100, 2100, 0, []))

  /** Connection 3 sends 7 bytes after its first snapshot. */
  lemma HiddenStart() returns (h: seq<Step>)
    ensures Real(h) && h != [] && Clock(h) == 1100
    ensures AllTicksBy(h, 1000)
    ensures Run(h, USUAL) == Only(map[3 := THREE], Sent(100, 1100, 8, [Mark(1000, 1, 0)]), {})
  {
    var begun, marked := THREE.(tally := Sent(100, 100, 1, [])), THREE.(tally := Sent(100, 100, 1, [Mark(1000, 1, 0)]));
    var m' := map[3 := marked];
    assert m'[3 := THREE] == map[3 := THREE];
    SendStart(3, 1, 10, 100, USUAL);
    TickOnly(map[3 := begun], Sent(100, 100, 1, []), {}, 1000, m', USUAL, 3);
    SendMore(m', Sent(100, 100, 1, [Mark(1000, 1, 0)]), {}, 3, 7, 1100, USUAL);
    NoSteps(USUAL, 0);
    hide After, AfterTick, Run, Real, AllTicksBy, Sends;
    h := ThenSends([], 3, 1, Some(10), {}, 100, USUAL);
    h := ThenTicks(h, 1000, 0, USUAL);
    h := ThenSends(h, 3, 7, None, {}, 1100, USUAL);
  }

  const HIDDEN: State :=
    Only(map[3 := THREE, 4 := FOUR, 5 := FIVE], Sent(100, 1200, 9, [Mark(1000, 1, 0), Mark(2000, 9, 0)]), {})

  /** The lookup for descriptor 4 makes connection 3 local, so a tick skips it; the
      lookup for descriptor 5 makes it not local again. */
  lemma HiddenEnd() returns (h: seq<Step>)
    ensures Real(h) && h != [] && Clock(h) == 2100
    ensures AllTicksBy(h, 2000)
    ensures Run(h, USUAL) == HIDDEN
  {
    var m, m' := map[3 := THREE], map[3 := THREE, 4 := FOUR];
    var begun := FOUR.(tally := Sent(1200, 1200, 1, []));
    var t, t' := Sent(100, 1100, 8, [Mark(1000, 1, 0)]), Sent(100, 1200, 9, [Mark(1000, 1, 0), Mark(2000, 9, 0)]);
    assert m'[5 := FIVE] == map[3 := THREE, 4 := FOUR, 5 := FIVE];
    SendFirst(m, t, {}, 4, 1, 11, {10}, 1200, USUAL);
    TickOnly(m[4 := begun], Sent(100, 1200, 9, [Mark(1000, 1, 0)]), {10}, 2000, m', USUAL, 4);
    assert [Mark(1000, 1, 0)] + [Mark(2000, 9, 0)] == [Mark(1000, 1, 0), Mark(2000, 9, 0)];
    SendSkipped(m', t', {10}, 5, 1, None, {}, 2100, USUAL);
    hide After, AfterTick, Run, Real, AllTicksBy, Sends;
    h := HiddenStart();
    h := ThenSends(h, 4, 1, Some(11), {10}, 1200, USUAL);
    h := ThenTicks(h, 2000, 1000, USUAL);
    h := ThenSends(h, 5, 1, None, {}, 2100, USUAL);
  }

  /** In state s a tick records at least this much for the connections of process 1, and that much for it. */
  ghost predicate Records(s: State, now: int, g: Config, connections: nat, process: nat) {
    && 1 in s.processes && 1 in AfterTick(s, now, g).processes
    && var p' := AfterTick(s, now, g).processes[1];
    && |p'.tally.marks| >= 2 && Recorded(p'.tally, true) == process
    && Total(RecordedFor(p'.connections, s.locals, true)) >= connections
  }

  const HIDDEN_AFTER: map<nat, Connection> :=
    map[3 := THREE.(tally := Sent(100, 1100, 8, [Mark(1000, 1, 0), Mark(3000, 8, 0)])),
        4 := FOUR.(tally := Sent(1200, 1200, 1, [Mark(2000, 1, 0), Mark(3000, 1, 0)])),
        5 := FIVE]

  lemma HiddenTicked()
    ensures AfterTick(HIDDEN, 3000, USUAL) ==
      Only(HIDDEN_AFTER, Sent(100, 1200, 9, [Mark(1000, 1, 0), Mark(2000, 9, 0), Mark(3000, 9, 0)]), {})
  {
    var t := Sent(100, 1200, 9, [Mark(1000, 1, 0), Mark(2000, 9, 0)]);
    TickOnly(HIDDEN.processes[1].connections, t, {}, 3000, HIDDEN_AFTER, USUAL, 3);
    assert t.marks + [Mark(3000, 9, 0)] == [Mark(1000, 1, 0), Mark(2000, 9, 0), Mark(3000, 9, 0)];
    hide AfterTick;
  }

  lemma RecordsOf(s: State, now: int, g: Config, m: map<nat, Connection>, t: Tally, fd: nat)
    requires AfterTick(s, now, g) == Only(m, t, s.locals) && 1 in s.processes && |t.marks| >= 2
    requires fd in m && !Skipped(m[fd], s.locals) && |m[fd].tally.marks| >= 2
    ensures Records(s, now, g, Recorded(m[fd].tally, true), Recorded(t, true))
  {
    TotalAtLeast(RecordedFor(m, s.locals, true), fd);
    hide AfterTick, Recorded, Total;
  }

  lemma HiddenTick()
    ensures Records(HIDDEN, 3000, USUAL, 7, 0)
  {
    var t := Sent(100, 1200, 9, [Mark(1000, 1, 0), Mark(2000, 9, 0), Mark(3000, 9, 0)]);
    HiddenTicked();
    RecordsOf(HIDDEN, 3000, USUAL, HIDDEN_AFTER, t, 3);
    RecordedLast(HIDDEN_AFTER[3].tally, 1, 8);
    RecordedLast(t, 9, 9);
    assert Growth(1, 8) == 7 && Growth(9, 9) == 0;
    hide *;
  }

  /** There is a run in which a tick records 7 bytes for a connection of a process, and none for the process:
      the connection was last snapshotted a second before its process was. */
  lemma HiddenBytes() returns (h: seq<Step>)
    ensures Real(h + [Tick(3000)]) && Records(Run(h, USUAL), 3000, USUAL, 7, 0)
    ensures var p := Run(h, USUAL).processes[1];
      3 in p.connections && LastAt(p.connections[3].tally) == Some(1000) && LastAt(p.tally) == Some(2000)
  {
    HiddenTick();
    hide After, AfterTick, Run, Real, Records;
    h := HiddenEnd();
    var _ := ThenTicks(h, 3000, 2000, USUAL);
  }

  // ---------------------------------------------------------------- local, then not

  /** The process below, when its only event is 900 ms old and its youngest connection 300 ms. */
  function Shown(): State {
    Only(map[3 := Connection(3, SOCKET, Some(10), Sent(100, 100, 1, [])),
             4 := Connection(4, SOCKET, Some(11), Sent(600, 600, 0, [])),
             5 := Connection(5, SOCKET, None, Sent(700, 700, 0, []))],
         Sent(100, 100, 1, []), {})
  }

  lemma ShownStart() returns (h: seq<Step>)
    ensures Real(h) && h != [] && Clock(h) == 700 && AllTicksBy(h, 0)
    ensures Run(h, BRIEF) == Shown()
  {
    var t := Sent(100, 100, 1, []);
    var three, four := Connection(3, SOCKET, Some(10), t), Connection(4, SOCKET, Some(11), Sent(600, 600, 0, []));
    var five := Connection(5, SOCKET, None, Sent(700, 700, 0, []));
    SendStart(3, 1, 10, 100, BRIEF);
    SendSkipped(map[3 := three], t, {}, 4, 1, Some(11), {11}, 600, BRIEF);
    SendSkipped(map[3 := three][4 := four], t, {11}, 5, 1, None, {}, 700, BRIEF);
    assert map[3 := three][4 := four][5 := five] == map[3 := three, 4 := four, 5 := five];
    NoSteps(BRIEF, 0);
    hide After, AfterTick, Run, Real, AllTicksBy, Sends;
    h := ThenSends([], 3, 1, Some(10), {}, 100, BRIEF);
    h := ThenSends(h, 4, 1, Some(11), {11}, 600, BRIEF);
    h := ThenSends(h, 5, 1, None, {}, 700, BRIEF);
  }

  /** There is a run in which a tick evicts a process with a connection that is accounted for and not
      idle: the connection was local when it was opened, after the last byte of the process. */
  lemma ShownConnection() returns (h: seq<Step>)
    ensures Real(h + [Tick(1000)])
    ensures var s := Run(h, BRIEF);
      1 in s.processes && 1 !in AfterTick(s, 1000, BRIEF).processes && TakesLive(s.processes[1], s.locals, 1000, BRIEF)
  {
    var p := Shown().processes[1];
    assert 1 !in AfterTick(Shown(), 1000, BRIEF).processes;
    assert 4 in p.connections && !Skipped(p.connections[4], {}) && !Idle(p.connections[4].tally, 1000, BRIEF.timeout);
    hide After, AfterTick, Run, Real, AllTicksBy, Sends;
    h := ShownStart();
    var _ := ThenTicks(h, 1000, 0, BRIEF);
  }

  // ---------------------------------------------------------------- 2^64 bytes in a window

  /** Two connections with a snapshot each, and the bytes that they have got in all. */
  function Pair(at: int, a: nat, bt: int, b: nat): map<nat, Connection> {
    map[3 := Connection(3, SOCKET, Some(10), Sent(100, at, a, [Mark(1000, 1, 0)])),
        4 := Connection(4, SOCKET, Some(11), Sent(200, bt, b, [Mark(1000, 1, 0)]))]
  }

  function PairTotal(updated: int, sent: nat): Tally {
    Sent(100, updated, sent, [Mark(1000, 2, 0)])
  }

  lemma PairStart() returns (h: seq<Step>)
    ensures Real(h) && h != [] && Clock(h) == 1000
    ensures AllTicksBy(h, 1000)
    ensures Run(h, USUAL) == Only(Pair(100, 1, 200, 1), PairTotal(200, 2), {})
  {
    var three := Connection(3, SOCKET, Some(10), Sent(100, 100, 1, []));
    var four := Connection(4, SOCKET, Some(11), Sent(200, 200, 1, []));
    SendStart(3, 1, 10, 100, USUAL);
    SendFirst(map[3 := three], Sent(100, 100, 1, []), {}, 4, 1, 11, {}, 200, USUAL);
    TickOnly(map[3 := three][4 := four], Sent(100, 200, 2, []), {}, 1000, Pair(100, 1, 200, 1), USUAL, 3);
    assert [] + [Mark(1000, 2, 0)] == [Mark(1000, 2, 0)];
    NoSteps(USUAL, 0);
    hide After, AfterTick, Run, Real, AllTicksBy, Sends;
    h := ThenSends([], 3, 1, Some(10), {}, 100, USUAL);
    h := ThenSends(h, 4, 1, Some(11), {}, 200, USUAL);
    h := ThenTicks(h, 1000, 0, USUAL);
  }

  const WRAPPED: State := Only(Pair(1200, WORD - 1, 1300, 4), PairTotal(1300, WORD + 3), {})

  /** Two events of 2^63 - 1 bytes of one connection, and one of 3 bytes of the other. */
  lemma PairEnd() returns (h: seq<Step>)
    ensures Real(h) && h != [] && Clock(h) == 1300
    ensures AllTicksBy(h, 1000)
    ensures Run(h, USUAL) == WRAPPED
  {
    SendMore(Pair(100, 1, 200, 1), PairTotal(200, 2), {}, 3, MAX_SIZE, 1100, USUAL);
    SendMore(Pair(1100, MAX_SIZE + 1, 200, 1), PairTotal(1100, MAX_SIZE + 2), {}, 3, MAX_SIZE, 1200, USUAL);
    SendMore(Pair(1200, WORD - 1, 200, 1), PairTotal(1200, WORD), {}, 4, 3, 1300, USUAL);
    assert Pair(100, 1, 200, 1)[3 := Pair(1100, MAX_SIZE + 1, 200, 1)[3]] == Pair(1100, MAX_SIZE + 1, 200, 1);
    assert Pair(1100, MAX_SIZE + 1, 200, 1)[3 := Pair(1200, WORD - 1, 200, 1)[3]] == Pair(1200, WORD - 1, 200, 1);
    assert Pair(1200, WORD - 1, 200, 1)[4 := Pair(1200, WORD - 1, 1300, 4)[4]] == Pair(1200, WORD - 1, 1300, 4);
    hide After, AfterTick, Run, Real, AllTicksBy, Sends;
    h := PairStart();
    h := ThenSends(h, 3, MAX_SIZE, None, {}, 1100, USUAL);
    h := ThenSends(h, 3, MAX_SIZE, None, {}, 1200, USUAL);
    h := ThenSends(h, 4, 3, None, {}, 1300, USUAL);
  }

  const WRAPPED_AFTER: map<nat, Connection> :=
    map[3 := Connection(3, SOCKET, Some(10), Sent(100, 1200, WORD - 1, [Mark(1000, 1, 0), Mark(2000, WORD - 1, 0)])),
        4 := Connection(4, SOCKET, Some(11), Sent(200, 1300, 4, [Mark(1000, 1, 0), Mark(2000, 4, 0)]))]

  lemma WrappedTicked()
    ensures AfterTick(WRAPPED, 2000, USUAL) ==
      Only(WRAPPED_AFTER, Sent(100, 1300, WORD + 3, [Mark(1000, 2, 0), Mark(2000, WORD + 3, 0)]), {})
  {
    TickOnly(Pair(1200, WORD - 1, 1300, 4), PairTotal(1300, WORD + 3), {}, 2000, WRAPPED_AFTER, USUAL, 3);
    assert [Mark(1000, 2, 0)] + [Mark(2000, WORD + 3, 0)] == [Mark(1000, 2, 0), Mark(2000, WORD + 3, 0)];
    hide AfterTick;
  }

  lemma WrappedWords()
    ensures Growth(1, WORD - 1) == WORD - 2 && Growth(2, WORD + 3) == 1
  {
  }

  lemma WrappedTick()
    ensures Records(WRAPPED, 2000, USUAL, WORD - 2, 1)
  {
    var t := Sent(100, 1300, WORD + 3, [Mark(1000, 2, 0), Mark(2000, WORD + 3, 0)]);
    hide AfterTick, Recorded, Records, Growth, Word;
    WrappedTicked();
    RecordsOf(WRAPPED, 2000, USUAL, WRAPPED_AFTER, t, 3);
    RecordedLast(WRAPPED_AFTER[3].tally, 1, WORD - 1);
    RecordedLast(t, 2, WORD + 3);
    WrappedWords();
  }

  lemma WrappedInStep()
    ensures AllInStep(WRAPPED.processes[1], WRAPPED.locals, 2000, USUAL)
    ensures Owed(WRAPPED.processes[1].tally, true) == WORD + 1
  {
  }

  /** There is a run, with every connection in step, in which a tick records 2^64 - 2 bytes for one
      connection and 1 for its process, which got 2^64 + 1. */
  lemma WrappedBytes() returns (h: seq<Step>)
    ensures Real(h + [Tick(2000)]) && Records(Run(h, USUAL), 2000, USUAL, WORD - 2, 1)
    ensures var s := Run(h, USUAL); var p := s.processes[1];
      AllInStep(p, s.locals, 2000, USUAL) && Owed(p.tally, true) == WORD + 1
  {
    WrappedTick();
    WrappedInStep();
    hide After, AfterTick, Run, Real, Records, AllInStep, Owed;
    h := PairEnd();
    var _ := ThenTicks(h, 2000, 1000, USUAL);
  }
}
