/**
 What holds of the accounting engine in every run: when what a tick records for the connections
 of a process stays within what it records for the process, and exactly when a process that is
 evicted as idle takes a connection with it that is accounted for and not idle.
 */
module EngineTheorems {
  import opened Options
  import opened Tallies
  import opened Engine

  // ---------------------------------------------------------------- sums over connections

  ghost function Pick(m: map<nat, nat>): (k: nat)
    requires m != map[]
    ensures k in m
  {
    assert m.Keys != {};
    var k :| k in m;
    k
  }

  ghost function Total(m: map<nat, nat>): nat
    decreases |m|
  {
    if m == map[] then 0 else m[Pick(m)] + Total(m - {Pick(m)})
  }

  lemma {:induction false} TotalPick(m: map<nat, nat>, k: nat)
    requires k in m
    ensures Total(m) == m[k] + Total(m - {k})
    decreases |m|
  {
    var j := Pick(m);
    if j != k {
      TotalPick(m - {j}, k);
      TotalPick(m - {k}, j);
      assert m - {j} - {k} == m - {k} - {j};
    }
  }

  lemma {:induction false} TotalLe(a: map<nat, nat>, b: map<nat, nat>)
    requires a.Keys <= b.Keys && forall k :: k in a ==> a[k] <= b[k]
    ensures Total(a) <= Total(b)
    decreases |a|
  {
    if a != map[] {
      var k := Pick(a);
      TotalPick(b, k);
      TotalLe(a - {k}, b - {k});
    }
  }

  /** Of two sums that differ at one key at most. */
  lemma TotalPut(a: map<nat, nat>, b: map<nat, nat>, k: nat)
    requires a.Keys == b.Keys && forall j :: j in a && j != k ==> a[j] == b[j]
    ensures Total(b) + (if k in a then a[k] else 0) == Total(a) + (if k in a then b[k] else 0)
  {
    if k in a {
      TotalPick(a, k);
      TotalPick(b, k);
      assert a - {k} == b - {k};
    } else {
      assert a == b;
    }
  }

  lemma {:induction false} TotalZero(m: map<nat, nat>)
    requires forall k :: k in m ==> m[k] == 0
    ensures Total(m) == 0
    decreases |m|
  {
    if m != map[] {
      TotalZero(m - {Pick(m)});
    }
  }

  // ---------------------------------------------------------------- what is still to be recorded

  function Got(t: Tally, out: bool): nat {
    if out then t.sent else t.received
  }

  function Seen(t: Tally, out: bool): nat {
    if t.marks == [] then 0
    else if out then t.marks[|t.marks| - 1].sent else t.marks[|t.marks| - 1].received
  }

  /** Bytes since the last snapshot, or ever before the first. */
  function Owed(t: Tally, out: bool): int {
    Got(t, out) - Seen(t, out)
  }

  /** What the next snapshot of a connection is to record: the first records nothing. */
  function Due(t: Tally, out: bool): nat {
    if t.marks == [] || Owed(t, out) < 0 then 0 else Owed(t, out)
  }

  function LastAt(t: Tally): Option<int> {
    if t.marks == [] then None else Some(t.marks[|t.marks| - 1].at)
  }

  /** The connection was last snapshotted when its process was. */
  predicate InStep(c: Connection, p: Process) {
    c.tally.marks != [] && LastAt(c.tally) == LastAt(p.tally)
  }

  function Dues(p: Process, out: bool): map<nat, nat> {
    map fd | fd in p.connections && InStep(p.connections[fd], p) :: Due(p.connections[fd].tally, out)
  }

  /** What the last snapshot recorded, if it recorded anything. */
  function Recorded(t: Tally, out: bool): nat {
    if |t.marks| < 2 then 0
    else
      var r := Deltas(t.marks)[|t.marks| - 2];
      if out then r.outgoing else r.incoming
  }

  /** What the connections of a process that are accounted for recorded when last snapshotted. */
  function RecordedFor(m: map<nat, Connection>, locals: set<nat>, out: bool): map<nat, nat> {
    map fd | fd in m && !Skipped(m[fd], locals) && |m[fd].tally.marks| >= 2 :: Recorded(m[fd].tally, out)
  }

  // ---------------------------------------------------------------- invariants

  predicate TallyOk(t: Tally, clock: int) {
    && t.capacity > 0 && t.createdAt.Some? && t.updatedAt.Some?
    && t.createdAt.value <= t.updatedAt.value <= clock
    && Owed(t, true) >= 0 && Owed(t, false) >= 0
  }

  /** A connection that was updated since it was made was so no later than its process. */
  predicate ConnectionOk(c: Connection, p: Process, clock: int) {
    && TallyOk(c.tally, clock) && p.tally.updatedAt.Some?
    && (c.tally.updatedAt == c.tally.createdAt || c.tally.updatedAt.value <= p.tally.updatedAt.value)
  }

  predicate ProcessOk(p: Process, clock: int) {
    TallyOk(p.tally, clock) && forall fd :: fd in p.connections ==> ConnectionOk(p.connections[fd], p, clock)
  }

  /** The process has got, since its last snapshot, what is still to be recorded for the
      connections last snapshotted with it. */
  ghost predicate Covers(p: Process) {
    Total(Dues(p, true)) <= Owed(p.tally, true) && Total(Dues(p, false)) <= Owed(p.tally, false)
  }

  /** A connection with a snapshot is accounted for, and was last snapshotted with its process. */
  predicate Marked(p: Process, locals: set<nat>) {
    forall fd :: fd in p.connections && p.connections[fd].tally.marks != [] ==>
      !Skipped(p.connections[fd], locals) && InStep(p.connections[fd], p)
  }

  /** No connection that is accounted for was updated after its process. */
  predicate Newer(p: Process, locals: set<nat>) {
    forall fd :: fd in p.connections && !Skipped(p.connections[fd], locals) ==>
      p.connections[fd].tally.updatedAt.Some? && p.tally.updatedAt.Some?
      && p.connections[fd].tally.updatedAt.value <= p.tally.updatedAt.value
  }

  // ---------------------------------------------------------------- rewritten connections

  /** No connection in the table becomes local. */
  predicate NoneHidden(p: Process, before: set<nat>, after: set<nat>) {
    forall fd :: fd in p.connections && p.connections[fd].info.Some? && p.connections[fd].info.value in after ==>
      p.connections[fd].info.value in before
  }

  /** No connection in the table ceases to be local. */
  predicate NoneShown(p: Process, before: set<nat>, after: set<nat>) {
    NoneHidden(p, after, before)
  }

  predicate HidesNone(s: State, s': State) {
    forall pid :: pid in s.processes ==> NoneHidden(s.processes[pid], s.locals, s'.locals)
  }

  predicate ShowsNone(s: State, s': State) {
    forall pid :: pid in s.processes ==> NoneShown(s.processes[pid], s.locals, s'.locals)
  }

  /** No lookup of the run makes a connection local while it is in the table. */
  predicate NeverHides(steps: seq<Step>, g: Config) {
    forall k :: 0 <= k < |steps| ==> HidesNone(Run(steps[..k], g), After(Run(steps[..k], g), steps[k], g))
  }

  /** No lookup of the run makes a connection not local while it is in the table. */
  predicate NeverShows(steps: seq<Step>, g: Config) {
    forall k :: 0 <= k < |steps| ==> ShowsNone(Run(steps[..k], g), After(Run(steps[..k], g), steps[k], g))
  }

  // ---------------------------------------------------------------- a read or write

  lemma TakesInOk(p: Process, e: RWEvent, locals: set<nat>, clock: int, now: int, g: Config)
    requires ProcessOk(p, clock) && clock <= now && g.capacity >= 1
    ensures ProcessOk(TakesIn(p, e, locals, now, g).0, now)
  {
  }

  /** p' is p with more bytes, of the connection fd if it was there, and no new snapshot. */
  predicate Gains(p: Process, p': Process, fd: nat, out: bool) {
    && p'.connections.Keys == p.connections.Keys + {fd} && p'.tally.marks == p.tally.marks
    && (forall j :: j in p.connections && j != fd ==> p'.connections[j] == p.connections[j])
    && p'.connections[fd].tally.marks == (if fd in p.connections then p.connections[fd].tally.marks else [])
    && Owed(p'.tally, out) >= Owed(p.tally, out)
    && (fd in p.connections ==>
          Owed(p'.connections[fd].tally, out) - Owed(p.connections[fd].tally, out)
            == Owed(p'.tally, out) - Owed(p.tally, out)
          && Owed(p.connections[fd].tally, out) >= 0)
  }

  lemma KnownConnection(p: Process, fd: nat, clock: int, out: bool)
    requires ProcessOk(p, clock) && fd in p.connections
    ensures p.connections[fd].tally.capacity > 0 && Owed(p.connections[fd].tally, out) >= 0
  {
  }

  lemma TakesInGains(p: Process, e: RWEvent, locals: set<nat>, clock: int, now: int, g: Config, out: bool)
    requires ProcessOk(p, clock) && g.capacity >= 1
    ensures Gains(p, TakesIn(p, e, locals, now, g).0, e.fd, out)
  {
    hide ProcessOk, Skipped, LooksUp;
    if e.fd in p.connections {
      KnownConnection(p, e.fd, clock, out);
    }
  }

  lemma SameInStep(p: Process, p': Process, fd: nat, out: bool)
    requires Gains(p, p', fd, out)
    ensures forall j :: j in Dues(p', out) <==> j in Dues(p, out)
    ensures forall j :: j in Dues(p, out) && j != fd ==> Dues(p', out)[j] == Dues(p, out)[j]
  {
    hide Owed;
  }

  /** The sum of what the connections in step owe grows by no more than what the process owes. */
  lemma GainsDues(p: Process, p': Process, fd: nat, out: bool)
    requires Gains(p, p', fd, out)
    ensures Total(Dues(p', out)) - Total(Dues(p, out)) <= Owed(p'.tally, out) - Owed(p.tally, out)
  {
    hide Total, Owed;
    SameInStep(p, p', fd, out);
    TotalPut(Dues(p, out), Dues(p', out), fd);
  }

  /** An event keeps the bound between a process and its connections, whatever its lookup finds. */
  lemma TakesInCovers(p: Process, e: RWEvent, locals: set<nat>, clock: int, now: int, g: Config)
    requires ProcessOk(p, clock) && Covers(p) && g.capacity >= 1
    ensures Covers(TakesIn(p, e, locals, now, g).0)
  {
    var p' := TakesIn(p, e, locals, now, g).0;
    TakesInGains(p, e, locals, clock, now, g, true);
    TakesInGains(p, e, locals, clock, now, g, false);
    GainsDues(p, p', e.fd, true);
    GainsDues(p, p', e.fd, false);
    hide Owed, Dues, Total, TakesIn, Gains;
  }

  lemma TakesInMarked(p: Process, e: RWEvent, locals: set<nat>, clock: int, now: int, g: Config)
    requires ProcessOk(p, clock) && Marked(p, locals) && g.capacity >= 1
    requires NoneHidden(p, locals, TakesIn(p, e, locals, now, g).1)
    ensures var (p', locals') := TakesIn(p, e, locals, now, g); Marked(p', locals')
  {
  }

  lemma TakesInNewer(p: Process, e: RWEvent, locals: set<nat>, clock: int, now: int, g: Config)
    requires ProcessOk(p, clock) && Newer(p, locals) && clock <= now && g.capacity >= 1
    requires NoneShown(p, locals, TakesIn(p, e, locals, now, g).1)
    ensures var (p', locals') := TakesIn(p, e, locals, now, g); Newer(p', locals')
  {
  }

  /** Only the connections of a process and what is local matter to its invariants. */
  lemma OthersStay(p: Process, locals: set<nat>, locals': set<nat>)
    ensures Marked(p, locals) && NoneHidden(p, locals, locals') ==> Marked(p, locals')
    ensures Newer(p, locals) && NoneShown(p, locals, locals') ==> Newer(p, locals')
  {
  }

  // ---------------------------------------------------------------- closing

  lemma ClosedCovers(p: Process, fd: nat)
    requires Covers(p)
    ensures Covers(p.(connections := p.connections - {fd}))
  {
    var p' := p.(connections := p.connections - {fd});
    TotalLe(Dues(p', true), Dues(p, true));
    TotalLe(Dues(p', false), Dues(p, false));
    hide Total;
  }

  // ---------------------------------------------------------------- a tick

  lemma TickedOk(p: Process, locals: set<nat>, clock: int, now: int, g: Config)
    requires ProcessOk(p, clock) && clock <= now
    ensures ProcessOk(ProcessTicked(p, locals, now, g), now)
  {
  }

  /** No connection that is skipped was snapshotted at this very time. */
  predicate NoneMissed(p: Process, locals: set<nat>, now: int) {
    forall fd :: fd in p.connections && LastAt(p.connections[fd].tally) == Some(now) ==>
      !Skipped(p.connections[fd], locals)
  }

  /** A tick that snapshots the process leaves nothing to be recorded for the connections in
      step with it; any other leaves those as they were that do not go. */
  lemma TickedDues(p: Process, locals: set<nat>, clock: int, now: int, g: Config, out: bool)
    requires ProcessOk(p, clock) && NoneMissed(p, locals, now) && Total(Dues(p, out)) <= Owed(p.tally, out)
    ensures var p' := ProcessTicked(p, locals, now, g); Total(Dues(p', out)) <= Owed(p'.tally, out)
  {
    var p' := ProcessTicked(p, locals, now, g);
    if Accounted(p'.connections, locals) {
      forall fd | fd in Dues(p', out)
        ensures Dues(p', out)[fd] == 0
      {
        assert p'.connections[fd] == ConnectionTicked(p.connections[fd], locals, now);
      }
      TotalZero(Dues(p', out));
    } else {
      forall fd | fd in p'.connections
        ensures p'.connections[fd] == p.connections[fd]
      {
        assert Skipped(p'.connections[fd], locals);
      }
      TotalLe(Dues(p', out), Dues(p, out));
    }
    hide Total, Accounted;
  }

  lemma TickedCovers(p: Process, locals: set<nat>, clock: int, now: int, g: Config)
    requires ProcessOk(p, clock) && Covers(p) && NoneMissed(p, locals, now)
    ensures Covers(ProcessTicked(p, locals, now, g))
  {
    TickedDues(p, locals, clock, now, g, true);
    TickedDues(p, locals, clock, now, g, false);
    hide Owed, Dues, Total, ProcessTicked;
  }

  lemma TickedMarked(p: Process, locals: set<nat>, clock: int, now: int, g: Config)
    requires ProcessOk(p, clock) && Marked(p, locals)
    ensures Marked(ProcessTicked(p, locals, now, g), locals)
  {
    var p' := ProcessTicked(p, locals, now, g);
    forall fd | fd in p'.connections && p'.connections[fd].tally.marks != []
      ensures !Skipped(p'.connections[fd], locals) && InStep(p'.connections[fd], p')
    {
      assert p'.connections[fd] == ConnectionTicked(p.connections[fd], locals, now);
      assert !Skipped(p'.connections[fd], locals);
    }
  }

  lemma TickedNewer(p: Process, locals: set<nat>, now: int, g: Config)
    requires Newer(p, locals)
    ensures Newer(ProcessTicked(p, locals, now, g), locals)
  {
  }

  // ---------------------------------------------------------------- every step

  predicate AllOk(s: State, clock: int) {
    forall pid :: pid in s.processes ==> ProcessOk(s.processes[pid], clock)
  }

  ghost predicate AllCover(s: State) {
    forall pid :: pid in s.processes ==> Covers(s.processes[pid])
  }

  predicate AllMarked(s: State) {
    forall pid :: pid in s.processes ==> Marked(s.processes[pid], s.locals)
  }

  predicate AllNewer(s: State) {
    forall pid :: pid in s.processes ==> Newer(s.processes[pid], s.locals)
  }

  predicate NoneMissedAt(s: State, now: int) {
    forall pid :: pid in s.processes ==> NoneMissed(s.processes[pid], s.locals, now)
  }

  lemma FreshProcess(s: State, e: RWEvent, clock: int, now: int, g: Config)
    requires AllOk(s, clock) && clock <= now && g.capacity >= 1
    ensures var p := ProcessFor(s, e, now, g);
      && ProcessOk(p, now) && (e.pid in s.processes ==> p == s.processes[e.pid])
      && (AllCover(s) ==> Covers(p))
      && (AllMarked(s) ==> Marked(p, s.locals)) && (AllNewer(s) ==> Newer(p, s.locals))
      && (e.pid !in s.processes ==> p.connections == map[])
  {
    if e.pid !in s.processes {
      var p := ProcessFor(s, e, now, g);
      assert Dues(p, true) == map[] && Dues(p, false) == map[];
    }
  }

  lemma StepOk(s: State, step: Step, clock: int, g: Config)
    requires AllOk(s, clock) && clock <= step.now && g.capacity >= 1
    ensures AllOk(After(s, step, g), step.now)
  {
    hide ProcessFor, TakesIn, ProcessTicked;
    match step {
      case ReadWrite(e, now) =>
        FreshProcess(s, e, clock, now, g);
        TakesInOk(ProcessFor(s, e, now, g), e, s.locals, now, now, g);
      case Tick(now) =>
        forall pid | pid in s.processes {
          TickedOk(s.processes[pid], s.locals, clock, now, g);
        }
      case _ =>
    }
  }

  lemma StepCovers(s: State, step: Step, clock: int, g: Config)
    requires AllOk(s, clock) && clock <= step.now && g.capacity >= 1
    requires AllCover(s) && (step.Tick? ==> NoneMissedAt(s, step.now))
    ensures AllCover(After(s, step, g))
  {
    match step {
      case ReadWrite(e, now) =>
        var p := ProcessFor(s, e, now, g);
        FreshProcess(s, e, clock, now, g);
        if p.known {
          TakesInCovers(p, e, s.locals, now, now, g);
        }
        hide ProcessFor, TakesIn, Covers, ProcessOk;
      case Close(pid, fd, _) =>
        if pid in s.processes {
          ClosedCovers(s.processes[pid], fd);
        }
        hide Covers, ProcessOk;
      case Tick(now) =>
        forall pid | pid in s.processes {
          TickedCovers(s.processes[pid], s.locals, clock, now, g);
        }
        hide Covers, ProcessOk, ProcessTicked;
      case _ =>
    }
  }

  /** A step whose lookup hides no connection keeps those with a snapshot accounted for and in step. */
  lemma StepMarked(s: State, step: Step, clock: int, g: Config)
    requires AllOk(s, clock) && clock <= step.now && g.capacity >= 1
    requires AllMarked(s) && HidesNone(s, After(s, step, g))
    ensures AllMarked(After(s, step, g))
  {
    var s' := After(s, step, g);
    forall pid | pid in s.processes {
      OthersStay(s.processes[pid], s.locals, s'.locals);
    }
    match step {
      case ReadWrite(e, now) =>
        var p := ProcessFor(s, e, now, g);
        FreshProcess(s, e, clock, now, g);
        if p.known {
          TakesInMarked(p, e, s.locals, now, now, g);
        }
        hide ProcessFor, TakesIn, Marked, ProcessOk;
      case Tick(now) =>
        forall pid | pid in s.processes {
          TickedMarked(s.processes[pid], s.locals, clock, now, g);
        }
        hide Marked, ProcessOk, ProcessTicked;
      case _ =>
    }
  }

  lemma StepNewer(s: State, step: Step, clock: int, g: Config)
    requires AllOk(s, clock) && clock <= step.now && g.capacity >= 1
    requires AllNewer(s) && ShowsNone(s, After(s, step, g))
    ensures AllNewer(After(s, step, g))
  {
    var s' := After(s, step, g);
    forall pid | pid in s.processes {
      OthersStay(s.processes[pid], s.locals, s'.locals);
    }
    match step {
      case ReadWrite(e, now) =>
        var p := ProcessFor(s, e, now, g);
        FreshProcess(s, e, clock, now, g);
        if p.known {
          TakesInNewer(p, e, s.locals, now, now, g);
        }
        hide ProcessFor, TakesIn, Newer, ProcessOk;
      case Tick(now) =>
        forall pid | pid in s.processes {
          TickedNewer(s.processes[pid], s.locals, now, g);
        }
        hide Newer, ProcessOk, ProcessTicked;
      case _ =>
    }
  }

  // ---------------------------------------------------------------- the times of the ticks

  /** The clock moves between two ticks. */
  predicate TicksApart(steps: seq<Step>) {
    forall i, j :: 0 <= i < j < |steps| && steps[i].Tick? && steps[j].Tick? ==> steps[i].now < steps[j].now
  }

  predicate TickedAt(steps: seq<Step>, at: int) {
    exists i :: 0 <= i < |steps| && steps[i].Tick? && steps[i].now == at
  }

  predicate SnapsTimed(p: Process, steps: seq<Step>) {
    forall fd :: fd in p.connections && p.connections[fd].tally.marks != [] ==>
      TickedAt(steps, LastAt(p.connections[fd].tally).value)
  }

  /** A step takes snapshots of connections only if it is a tick, at its time. */
  lemma SnapFrom(s: State, step: Step, g: Config, pid: nat, fd: nat)
    requires var s' := After(s, step, g);
      pid in s'.processes && fd in s'.processes[pid].connections && s'.processes[pid].connections[fd].tally.marks != []
    ensures var t := After(s, step, g).processes[pid].connections[fd].tally;
      || (step.Tick? && LastAt(t) == Some(step.now))
      || (pid in s.processes && fd in s.processes[pid].connections
          && s.processes[pid].connections[fd].tally.marks == t.marks)
  {
  }

  lemma TickedLast(steps: seq<Step>)
    requires steps != [] && steps[|steps| - 1].Tick?
    ensures TickedAt(steps, steps[|steps| - 1].now)
  {
  }

  lemma TickedLonger(steps: seq<Step>, at: int)
    requires steps != [] && TickedAt(steps[..|steps| - 1], at)
    ensures TickedAt(steps, at)
  {
    var n := |steps| - 1;
    var i :| 0 <= i < n && steps[..n][i].Tick? && steps[..n][i].now == at;
    assert steps[i] == steps[..n][i];
  }

  /** Every snapshot was taken by a tick of the run. */
  lemma {:induction false} RunTimed(steps: seq<Step>, g: Config)
    ensures forall pid :: pid in Run(steps, g).processes ==> SnapsTimed(Run(steps, g).processes[pid], steps)
  {
    hide TickedAt, After;
    if steps != [] {
      var n := |steps| - 1;
      var s, s' := Run(steps[..n], g), Run(steps, g);
      RunTimed(steps[..n], g);
      forall pid, fd | pid in s'.processes && fd in s'.processes[pid].connections
          && s'.processes[pid].connections[fd].tally.marks != []
        ensures TickedAt(steps, LastAt(s'.processes[pid].connections[fd].tally).value)
      {
        var t := s'.processes[pid].connections[fd].tally;
        SnapFrom(s, steps[n], g, pid, fd);
        if steps[n].Tick? && LastAt(t) == Some(steps[n].now) {
          TickedLast(steps);
        } else {
          TickedLonger(steps, LastAt(t).value);
        }
      }
      hide Run;
    }
  }

  lemma NoneMissedYet(steps: seq<Step>, now: int, g: Config)
    requires TicksApart(steps + [Tick(now)])
    ensures NoneMissedAt(Run(steps, g), now)
  {
    RunTimed(steps, g);
    var all := steps + [Tick(now)];
    forall i | 0 <= i < |steps| && steps[i].Tick?
      ensures steps[i].now < now
    {
      assert all[i] == steps[i] && all[|steps|].Tick?;
    }
    hide Run;
  }

  // ---------------------------------------------------------------- every run

  function Clock(steps: seq<Step>): int
    requires steps != []
  {
    steps[|steps| - 1].now
  }

  /** The time and the place of a step that may follow the run. */
  predicate MayFollow(steps: seq<Step>, now: int, g: Config) {
    g.capacity >= 1 && Clocked(steps) && (steps != [] ==> Clock(steps) <= now)
  }

  lemma ClockOnly(s: State, clock: int, now: int)
    requires AllOk(s, clock) && clock <= now
    ensures AllOk(s, now)
  {
  }

  lemma RestHides(steps: seq<Step>, g: Config)
    requires steps != []
    ensures var n := |steps| - 1; var s := Run(steps[..n], g);
      && (NeverHides(steps, g) ==> NeverHides(steps[..n], g) && HidesNone(s, After(s, steps[n], g)))
      && (NeverShows(steps, g) ==> NeverShows(steps[..n], g) && ShowsNone(s, After(s, steps[n], g)))
  {
    var n := |steps| - 1;
    forall k | 0 <= k < n
      ensures steps[..n][..k] == steps[..k] && steps[..n][k] == steps[k]
    {
    }
    hide After, Run, HidesNone, ShowsNone;
  }

  lemma {:induction false} RunOk(steps: seq<Step>, now: int, g: Config)
    requires MayFollow(steps, now, g)
    ensures AllOk(Run(steps, g), now)
    ensures NeverHides(steps, g) ==> AllMarked(Run(steps, g))
    ensures NeverShows(steps, g) ==> AllNewer(Run(steps, g))
  {
    if steps != [] {
      var n := |steps| - 1;
      var rest, step := steps[..n], steps[n];
      RunOk(rest, step.now, g);
      RestHides(steps, g);
      hide After;
      StepOk(Run(rest, g), step, step.now, g);
      if NeverHides(steps, g) {
        StepMarked(Run(rest, g), step, step.now, g);
      }
      if NeverShows(steps, g) {
        StepNewer(Run(rest, g), step, step.now, g);
      }
      ClockOnly(Run(steps, g), step.now, now);
      hide AllOk, AllMarked, AllNewer, HidesNone, ShowsNone;
    }
  }

  lemma MarkedNotMissed(s: State, now: int)
    requires AllMarked(s)
    ensures NoneMissedAt(s, now)
  {
  }

  lemma LastMissesNone(steps: seq<Step>, g: Config)
    requires steps != []
    ensures var n := |steps| - 1; var s := Run(steps[..n], g);
      steps[n].Tick? && (TicksApart(steps) || AllMarked(s)) ==> NoneMissedAt(s, steps[n].now)
  {
    var n := |steps| - 1;
    if steps[n].Tick? {
      assert steps == steps[..n] + [Tick(steps[n].now)];
      hide Run, NoneMissedAt, AllMarked;
      if TicksApart(steps) {
        NoneMissedYet(steps[..n], steps[n].now, g);
      } else if AllMarked(Run(steps[..n], g)) {
        MarkedNotMissed(Run(steps[..n], g), steps[n].now);
      }
    }
  }

  /** After every run in which the clock moves between ticks, or no lookup hides a connection,
      each process has got what is still to be recorded for the connections in step with it. */
  lemma {:induction false} RunCovers(steps: seq<Step>, now: int, g: Config)
    requires MayFollow(steps, now, g) && (TicksApart(steps) || NeverHides(steps, g))
    ensures AllCover(Run(steps, g))
  {
    if steps != [] {
      var n := |steps| - 1;
      var rest, step := steps[..n], steps[n];
      RestHides(steps, g);
      assert TicksApart(steps) ==> TicksApart(rest);
      hide NeverHides, NeverShows, TicksApart;
      RunCovers(rest, step.now, g);
      RunOk(rest, step.now, g);
      LastMissesNone(steps, g);
      hide After, AllOk, AllMarked, AllNewer, AllCover, NoneMissedAt, Clocked;
      StepCovers(Run(rest, g), step, step.now, g);
    }
  }

  // ---------------------------------------------------------------- the tick

  lemma RecordedIsDue(t: Tally, now: int, out: bool)
    requires t.capacity > 0 && t.marks != [] && Owed(t, out) >= 0
    ensures |Snapped(t, now).marks| >= 2 && Recorded(Snapped(t, now), out) == Word(Owed(t, out))
  {
    var r := Deltas(Snapped(t, now).marks);
    assert r[|t.marks| - 1] == Window(t.marks[|t.marks| - 1], Mark(now, t.sent, t.received));
    hide Word, Deltas;
  }

  lemma WordLe(n: nat)
    ensures 0 <= Word(n) <= n && (n < WORD <==> Word(n) == n)
  {
  }

  /** The records of the connections that were in step with the process p. */
  function InStepOnly(r: map<nat, nat>, p: Process): map<nat, nat> {
    map fd | fd in r && fd in p.connections && InStep(p.connections[fd], p) :: r[fd]
  }

  /** A tick that turns p into p' records for the process too if it records for a connection in
      step; what it records for these is at most what the process got since its last snapshot,
      and that is what it records for the process exactly if it is less than 2^64. */
  ghost predicate InStepWithin(p: Process, p': Process, locals: set<nat>, out: bool) {
    var r := InStepOnly(RecordedFor(p'.connections, locals, out), p);
    r != map[] ==>
      && |p'.tally.marks| == |p.tally.marks| + 1 >= 2
      && Total(r) <= Owed(p.tally, out)
      && (Recorded(p'.tally, out) == Owed(p.tally, out) <==> Owed(p.tally, out) < WORD)
  }

  /** The same for all that the tick records for: unless the process got 2^64 bytes or more,
      the connections together are given no more than the process. */
  ghost predicate TickWithin(p: Process, p': Process, locals: set<nat>, out: bool) {
    var r := RecordedFor(p'.connections, locals, out);
    r != map[] ==>
      && |p'.tally.marks| == |p.tally.marks| + 1 >= 2
      && (Owed(p.tally, out) < WORD ==> Total(r) <= Recorded(p'.tally, out))
  }

  lemma CoversOwed(p: Process, clock: int, out: bool)
    requires ProcessOk(p, clock) && Covers(p)
    ensures Total(Dues(p, out)) <= Owed(p.tally, out) && Owed(p.tally, out) >= 0 && p.tally.capacity > 0
  {
    hide Total, Dues, Owed;
  }

  lemma AccountedBy(m: map<nat, Connection>, locals: set<nat>, fd: nat)
    requires fd in m && !Skipped(m[fd], locals)
    ensures Accounted(m, locals)
  {
  }

  lemma RecordsDue(p: Process, locals: set<nat>, clock: int, now: int, g: Config, out: bool, fd: nat)
    requires ProcessOk(p, clock)
    requires fd in InStepOnly(RecordedFor(ProcessTicked(p, locals, now, g).connections, locals, out), p)
    ensures var p' := ProcessTicked(p, locals, now, g);
      && p.tally.marks != [] && p'.tally == Snapped(p.tally, now) && fd in Dues(p, out)
      && InStepOnly(RecordedFor(p'.connections, locals, out), p)[fd] <= Dues(p, out)[fd]
  {
    hide Recorded, Word, Owed, Idle, Accounted;
    var c := p.connections[fd];
    var p' := ProcessTicked(p, locals, now, g);
    assert p'.connections[fd] == ConnectionTicked(c, locals, now) && !Skipped(p'.connections[fd], locals);
    AccountedBy(p'.connections, locals, fd);
    assert c.tally.capacity > 0 && Owed(c.tally, out) >= 0;
    RecordedIsDue(c.tally, now, out);
    WordLe(Owed(c.tally, out));
  }

  lemma ProcessWithin(p: Process, locals: set<nat>, clock: int, now: int, g: Config, out: bool)
    requires ProcessOk(p, clock) && Covers(p)
    ensures InStepWithin(p, ProcessTicked(p, locals, now, g), locals, out)
  {
    hide ProcessTicked, InStepOnly, RecordedFor, ProcessOk, Covers, Owed, Recorded, Total, Dues;
    var p' := ProcessTicked(p, locals, now, g);
    var r := InStepOnly(RecordedFor(p'.connections, locals, out), p);
    forall fd | fd in r
      ensures fd in Dues(p, out) && r[fd] <= Dues(p, out)[fd]
      ensures p.tally.marks != [] && p'.tally == Snapped(p.tally, now)
    {
      RecordsDue(p, locals, clock, now, g, out, fd);
    }
    TotalLe(r, Dues(p, out));
    CoversOwed(p, clock, out);
    if r != map[] {
      assert Pick(r) in r;
      RecordedIsDue(p.tally, now, out);
      WordLe(Owed(p.tally, out));
    }
  }

  /** A tick records something for the connection. */
  predicate Counts(c: Connection, locals: set<nat>, now: int, g: Config) {
    c.tally.marks != [] && !Skipped(c, locals) && !Idle(c.tally, now, g.timeout)
  }

  /** The condition at a tick: what it records for was last snapshotted when the process was. */
  predicate AllInStep(p: Process, locals: set<nat>, now: int, g: Config) {
    forall fd :: fd in p.connections && Counts(p.connections[fd], locals, now, g) ==> InStep(p.connections[fd], p)
  }

  lemma AllInStepWithin(p: Process, locals: set<nat>, clock: int, now: int, g: Config, out: bool)
    requires ProcessOk(p, clock) && Covers(p) && AllInStep(p, locals, now, g)
    ensures TickWithin(p, ProcessTicked(p, locals, now, g), locals, out)
  {
    hide Recorded, Total, ProcessOk, Covers;
    var p' := ProcessTicked(p, locals, now, g);
    var r := RecordedFor(p'.connections, locals, out);
    ProcessWithin(p, locals, clock, now, g, out);
    forall fd | fd in r
      ensures fd in p.connections && InStep(p.connections[fd], p)
    {
      assert p'.connections[fd] == ConnectionTicked(p.connections[fd], locals, now);
    }
    assert InStepOnly(r, p) == r;
    hide ProcessTicked;
  }

  /** Whatever the lookups of a run did to its connections: if the clock moved between its ticks, the
      next tick keeps within what the process got, for the connections last snapshotted with it. */
  lemma InStepWithinProcess(steps: seq<Step>, now: int, g: Config, pid: nat, out: bool)
    requires MayFollow(steps, now, g) && TicksApart(steps)
    requires pid in AfterTick(Run(steps, g), now, g).processes
    ensures var s := Run(steps, g);
      InStepWithin(s.processes[pid], AfterTick(s, now, g).processes[pid], s.locals, out)
  {
    RunOk(steps, now, g);
    RunCovers(steps, now, g);
    ProcessWithin(Run(steps, g).processes[pid], Run(steps, g).locals, now, now, g, out);
    hide Run, InStepWithin, ProcessTicked, Covers, ProcessOk;
  }

  /** So a tick that finds all the connections it records for in step with their process
      records no less for the process than for all of them. */
  lemma TickInStepWithin(steps: seq<Step>, now: int, g: Config, pid: nat, out: bool)
    requires MayFollow(steps, now, g) && TicksApart(steps)
    requires pid in AfterTick(Run(steps, g), now, g).processes
    requires AllInStep(Run(steps, g).processes[pid], Run(steps, g).locals, now, g)
    ensures var s := Run(steps, g);
      TickWithin(s.processes[pid], AfterTick(s, now, g).processes[pid], s.locals, out)
  {
    RunOk(steps, now, g);
    RunCovers(steps, now, g);
    AllInStepWithin(Run(steps, g).processes[pid], Run(steps, g).locals, now, now, g, out);
    hide Run, TickWithin, ProcessTicked, AllInStep, Covers, ProcessOk;
  }

  /** It finds them so after every run in which no lookup makes a connection of the table local. */
  lemma TickWithinProcess(steps: seq<Step>, now: int, g: Config, pid: nat, out: bool)
    requires MayFollow(steps, now, g) && NeverHides(steps, g)
    requires pid in AfterTick(Run(steps, g), now, g).processes
    ensures var s := Run(steps, g);
      && AllInStep(s.processes[pid], s.locals, now, g)
      && TickWithin(s.processes[pid], AfterTick(s, now, g).processes[pid], s.locals, out)
  {
    RunOk(steps, now, g);
    RunCovers(steps, now, g);
    assert Marked(Run(steps, g).processes[pid], Run(steps, g).locals);
    AllInStepWithin(Run(steps, g).processes[pid], Run(steps, g).locals, now, now, g, out);
    hide Run, TickWithin, ProcessTicked, Covers, ProcessOk, NeverHides;
  }

  // ---------------------------------------------------------------- eviction

  /** Whatever the run: a connection of an evicted process is not idle exactly if it was made within
      the timeout, and no connection is newer than its process but one made after its last update. */
  lemma EvictedExactly(steps: seq<Step>, now: int, g: Config, pid: nat, fd: nat)
    requires MayFollow(steps, now, g) && pid in Run(steps, g).processes
    requires fd in Run(steps, g).processes[pid].connections
    ensures var p := Run(steps, g).processes[pid]; var c := p.connections[fd].tally;
      && p.tally.updatedAt.Some? && c.updatedAt.Some? && c.createdAt.Some?
      && (c.updatedAt.value <= p.tally.updatedAt.value <==> c.createdAt.value <= p.tally.updatedAt.value)
      && (pid !in AfterTick(Run(steps, g), now, g).processes ==>
            (!Idle(c, now, g.timeout) <==> now - c.createdAt.value <= g.timeout))
  {
    RunOk(steps, now, g);
    assert ConnectionOk(Run(steps, g).processes[pid].connections[fd], Run(steps, g).processes[pid], now);
    hide Run, Owed, ProcessTicked;
  }

  /** The eviction of a process takes an accountable connection with it that is not idle. */
  predicate TakesLive(p: Process, locals: set<nat>, now: int, g: Config) {
    exists fd ::
      fd in p.connections && !Skipped(p.connections[fd], locals) && !Idle(p.connections[fd].tally, now, g.timeout)
  }

  /** Some accountable connection was made within the timeout. */
  predicate HasYoung(p: Process, locals: set<nat>, now: int, g: Config) {
    exists fd :: fd in p.connections && !Skipped(p.connections[fd], locals)
      && p.connections[fd].tally.createdAt.Some? && now - p.connections[fd].tally.createdAt.value <= g.timeout
  }

  /** After every run: the eviction of a process takes a live connection with it if and only if the
      process has an accountable connection that was made within the timeout. */
  lemma EvictionTakesLive(steps: seq<Step>, now: int, g: Config, pid: nat)
    requires MayFollow(steps, now, g)
    requires pid in Run(steps, g).processes && pid !in AfterTick(Run(steps, g), now, g).processes
    ensures var s := Run(steps, g);
      TakesLive(s.processes[pid], s.locals, now, g) <==> HasYoung(s.processes[pid], s.locals, now, g)
  {
    forall fd | fd in Run(steps, g).processes[pid].connections {
      EvictedExactly(steps, now, g, pid, fd);
    }
    hide Run, AfterTick, Skipped, Idle;
  }

  /** After every run in which no lookup makes a connection of the table cease to be local,
      no process that a tick evicts has such a connection. */
  lemma EvictedIsIdle(steps: seq<Step>, now: int, g: Config, pid: nat)
    requires MayFollow(steps, now, g) && NeverShows(steps, g)
    requires pid in Run(steps, g).processes && pid !in AfterTick(Run(steps, g), now, g).processes
    ensures !TakesLive(Run(steps, g).processes[pid], Run(steps, g).locals, now, g)
  {
    RunOk(steps, now, g);
    assert Newer(Run(steps, g).processes[pid], Run(steps, g).locals);
    hide Run;
  }

  // ---------------------------------------------------------------- conservation in the engine

  /** The tally is that of a counter after some run of its own. */
  ghost predicate IsPlayed(t: Tally) {
    exists acts :: Played(acts) == t
  }

  lemma PlayedMore(t: Tally, a: Act)
    requires IsPlayed(t)
    ensures IsPlayed(Perform(t, a))
  {
    var acts :| Played(acts) == t;
    assert (acts + [a])[..|acts|] == acts;
    assert Played(acts + [a]) == Perform(t, a);
  }

  lemma FreshPlayed()
    ensures IsPlayed(FRESH)
  {
    assert Played([]) == FRESH;
  }

  ghost predicate TalliesPlayed(p: Process) {
    IsPlayed(p.tally) && forall fd :: fd in p.connections ==> IsPlayed(p.connections[fd].tally)
  }

  lemma TakesInPlayed(p: Process, e: RWEvent, locals: set<nat>, now: int, g: Config)
    requires TalliesPlayed(p)
    ensures TalliesPlayed(TakesIn(p, e, locals, now, g).0)
  {
    FreshPlayed();
    var (c, first) := ConnectionFor(p, e);
    var begun := Opened(c, first, e, now, g);
    PlayedMore(c.tally, Begin(g.capacity, now));
    PlayedMore(begun.tally, Add(e.direction, e.size, now));
    PlayedMore(p.tally, Add(e.direction, e.size, now));
    hide IsPlayed, Begun, Added;
  }

  lemma TickedPlayed(p: Process, locals: set<nat>, now: int, g: Config)
    requires TalliesPlayed(p)
    ensures TalliesPlayed(ProcessTicked(p, locals, now, g))
  {
    PlayedMore(p.tally, Snap(now));
    forall fd | fd in p.connections {
      PlayedMore(p.connections[fd].tally, Snap(now));
    }
    hide IsPlayed, Snapped, Accounted;
  }

  lemma {:induction false} RunPlayed(steps: seq<Step>, g: Config)
    ensures forall pid :: pid in Run(steps, g).processes ==> TalliesPlayed(Run(steps, g).processes[pid])
  {
    if steps != [] {
      var s, step := Run(steps[..|steps| - 1], g), steps[|steps| - 1];
      RunPlayed(steps[..|steps| - 1], g);
      match step {
        case ReadWrite(e, now) =>
          FreshPlayed();
          var p := if e.pid in s.processes then s.processes[e.pid] else Process(e.pid, false, map[], FRESH);
          PlayedMore(p.tally, Begin(g.capacity, now));
          assert TalliesPlayed(ProcessFor(s, e, now, g)) by {
            hide IsPlayed, Begun;
          }
          TakesInPlayed(ProcessFor(s, e, now, g), e, s.locals, now, g);
          hide TakesIn, ProcessFor, TalliesPlayed;
        case Tick(now) =>
          forall pid | pid in s.processes {
            TickedPlayed(s.processes[pid], s.locals, now, g);
          }
          hide ProcessTicked, TalliesPlayed;
        case _ =>
          hide IsPlayed;
      }
    }
  }

  predicate Conserved(t: Tally) {
    t.marks != [] ==>
      && (t.marks[0].sent + SumOutgoing(Deltas(t.marks)) + Pending(t.sent, t.marks, true)) % WORD == t.sent % WORD
      && (t.marks[0].received + SumIncoming(Deltas(t.marks)) + Pending(t.received, t.marks, false)) % WORD
           == t.received % WORD
  }

  lemma PlayedConserves(t: Tally)
    requires IsPlayed(t)
    ensures Conserved(t)
  {
    var acts :| Played(acts) == t;
    RunRises(acts);
    if t.marks != [] {
      Conservation(acts);
    }
  }

  /** In every run of the engine, for every process and every connection of it: the bytes before
      the first snapshot, all that was recorded, and what is still to be recorded are all it got. */
  lemma EngineConserves(steps: seq<Step>, g: Config, pid: nat)
    requires pid in Run(steps, g).processes
    ensures Conserved(Run(steps, g).processes[pid].tally)
    ensures var m := Run(steps, g).processes[pid].connections; forall fd :: fd in m ==> Conserved(m[fd].tally)
  {
    RunPlayed(steps, g);
    var p := Run(steps, g).processes[pid];
    PlayedConserves(p.tally);
    forall fd | fd in p.connections {
      PlayedConserves(p.connections[fd].tally);
    }
    hide Conserved, IsPlayed;
  }

  // ---------------------------------------------------------------- bytes of a process and its connections

  function Gots(m: map<nat, Connection>, out: bool): map<nat, nat> {
    map fd | fd in m :: Got(m[fd].tally, out)
  }

  lemma GotsPut(m: map<nat, Connection>, fd: nat, c: Connection, out: bool)
    ensures Total(Gots(m[fd := c], out)) ==
      Total(Gots(m, out)) + Got(c.tally, out) - if fd in m then Got(m[fd].tally, out) else 0
  {
    TotalPick(Gots(m[fd := c], out), fd);
    assert Gots(m[fd := c], out) - {fd} == Gots(m, out) - {fd};
    if fd in m {
      TotalPick(Gots(m, out), fd);
    } else {
      assert Gots(m, out) - {fd} == Gots(m, out);
    }
  }

  /** An event adds its size, in its direction only, to one connection and to the process
      alike, if that connection is accounted for, and otherwise nothing to either. */
  lemma EventAddsOnce(p: Process, e: RWEvent, locals: set<nat>, now: int, g: Config, out: bool)
    ensures var (p', locals') := TakesIn(p, e, locals, now, g);
      var added := if e.direction == (if out then OUTGOING else INCOMING) && !Skipped(p'.connections[e.fd], locals')
        then e.size else 0;
      && Got(p'.tally, out) == Got(p.tally, out) + added
      && Total(Gots(p'.connections, out)) == Total(Gots(p.connections, out)) + added
      && p'.connections - {e.fd} == p.connections - {e.fd}
  {
    var (p', locals') := TakesIn(p, e, locals, now, g);
    GotsPut(p.connections, e.fd, p'.connections[e.fd], out);
    assert p'.connections == p.connections[e.fd := p'.connections[e.fd]];
    hide Total, Gots;
  }

  ghost predicate Bounded(p: Process, out: bool) {
    Total(Gots(p.connections, out)) <= Got(p.tally, out)
  }

  lemma TickedBounded(p: Process, locals: set<nat>, now: int, g: Config, out: bool)
    requires Bounded(p, out)
    ensures Bounded(ProcessTicked(p, locals, now, g), out)
  {
    TotalLe(Gots(ProcessTicked(p, locals, now, g).connections, out), Gots(p.connections, out));
    hide Total;
  }

  lemma TakesInBounded(p: Process, e: RWEvent, locals: set<nat>, now: int, g: Config, out: bool)
    requires Bounded(p, out)
    ensures Bounded(TakesIn(p, e, locals, now, g).0, out)
  {
    hide TakesIn, Total, Gots, Got;
    EventAddsOnce(p, e, locals, now, g, out);
  }

  ghost predicate AllBounded(s: State, out: bool) {
    forall pid :: pid in s.processes ==> Bounded(s.processes[pid], out)
  }

  lemma FreshBounded(s: State, e: RWEvent, now: int, g: Config, out: bool)
    requires AllBounded(s, out)
    ensures Bounded(ProcessFor(s, e, now, g), out)
  {
    hide Total;
    if e.pid !in s.processes {
      assert Gots(map[], out) == map[];
      TotalZero(map[]);
    }
  }

  lemma ClosedBounded(p: Process, fd: nat, out: bool)
    requires Bounded(p, out)
    ensures Bounded(p.(connections := p.connections - {fd}), out)
  {
    hide Total, Got;
    TotalLe(Gots(p.connections - {fd}, out), Gots(p.connections, out));
  }

  lemma StepBounded(s: State, step: Step, g: Config, out: bool)
    requires AllBounded(s, out)
    ensures AllBounded(After(s, step, g), out)
  {
    hide Bounded, ProcessTicked, TakesIn, ProcessFor;
    match step {
      case ReadWrite(e, now) =>
        FreshBounded(s, e, now, g, out);
        TakesInBounded(ProcessFor(s, e, now, g), e, s.locals, now, g, out);
      case Close(pid, fd, _) =>
        if pid in s.processes {
          ClosedBounded(s.processes[pid], fd, out);
        }
      case Tick(now) =>
        forall pid | pid in s.processes {
          TickedBounded(s.processes[pid], s.locals, now, g, out);
        }
      case _ =>
    }
  }

  lemma StartBounded(out: bool)
    ensures AllBounded(START, out)
  {
  }

  /** In every run the connections of a process have got no more than the process, in either direction. */
  lemma {:induction false} ConnectionsWithinProcess(steps: seq<Step>, g: Config, out: bool)
    ensures AllBounded(Run(steps, g), out)
  {
    hide AllBounded, After;
    if steps == [] {
      StartBounded(out);
    } else {
      ConnectionsWithinProcess(steps[..|steps| - 1], g, out);
      StepBounded(Run(steps[..|steps| - 1], g), steps[|steps| - 1], g, out);
    }
  }
}
