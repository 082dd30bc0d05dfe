/**
 Where every byte of a process is at a tick: with its connections, counted from the last
 snapshot of the process, or gone with connections that were removed since. This gives the
 exact condition under which what a tick records for the connections of a process stays
 within what it records for the process.
 */
module EngineLedger {
  import opened Options
  import opened Tallies
  import opened Engine
  import opened EngineTheorems

  // ---------------------------------------------------------------- sums

  lemma {:induction false} TotalSum(a: map<nat, nat>, b: map<nat, nat>, c: map<nat, nat>)
    requires a.Keys == b.Keys == c.Keys && forall k :: k in c ==> c[k] == a[k] + b[k]
    ensures Total(c) == Total(a) + Total(b)
    decreases |c|
  {
    if c != map[] {
      var k := Pick(c);
      TotalPick(a, k);
      TotalPick(b, k);
      TotalSum(a - {k}, b - {k}, c - {k});
    } else {
      assert a == map[] && b == map[];
    }
  }

  lemma {:induction false} TotalSplit(m: map<nat, nat>, a: map<nat, nat>, b: map<nat, nat>)
    requires forall k :: k in m <==> k in a || k in b
    requires forall k :: k in a ==> k !in b && a[k] == m[k]
    requires forall k :: k in b ==> b[k] == m[k]
    ensures Total(m) == Total(a) + Total(b)
    decreases |a|
  {
    hide Total;
    if a == map[] {
      TotalZero(a);
      assert b == m;
    } else {
      var k := Pick(a);
      TotalPick(a, k);
      TotalPick(m, k);
      TotalSplit(m - {k}, a - {k}, b);
    }
  }

  /** Of two sums that differ at one key at most, which the first may lack. */
  lemma TotalGrown(a: map<nat, nat>, b: map<nat, nat>, k: nat)
    requires b.Keys == a.Keys + {k} && forall j :: j in a && j != k ==> a[j] == b[j]
    ensures Total(b) + (if k in a then a[k] else 0) == Total(a) + b[k]
  {
    hide Total;
    TotalPick(b, k);
    if k in a {
      TotalPick(a, k);
      assert a - {k} == b - {k};
    } else {
      assert a == b - {k};
    }
  }

  // ---------------------------------------------------------------- the book of a process

  /** What each connection had got when its process was last snapshotted, if it was there
      then, and what connections that have been removed since had got since. */
  datatype Book = Book(base: map<nat, nat>, gone: nat)

  function Base(b: Book, fd: nat): nat {
    if fd in b.base then b.base[fd] else 0
  }

  function Minus(n: nat, m: nat): nat {
    if m <= n then n - m else 0
  }

  /** What the connections got since the last snapshot of the process. */
  function Since(p: Process, b: Book, out: bool): map<nat, nat> {
    map fd | fd in p.connections :: Minus(Got(p.connections[fd].tally, out), Base(b, fd))
  }

  function Removed(p: Process, p': Process, b: Book, out: bool): map<nat, nat> {
    map fd | fd in p.connections && fd !in p'.connections :: Minus(Got(p.connections[fd].tally, out), Base(b, fd))
  }

  /** A snapshot of the process opens a new page. */
  ghost function Turned(b: Book, p: Process, p': Process, out: bool): Book {
    if p'.tally.marks != p.tally.marks then Book(Gots(p'.connections, out), 0)
    else Book(map fd | fd in b.base && fd in p'.connections :: b.base[fd], b.gone + Total(Removed(p, p', b, out)))
  }

  const BLANK: Book := Book(map[], 0)

  /** The book of a process after a run. */
  ghost function BookOf(steps: seq<Step>, g: Config, pid: nat, out: bool): Book {
    if steps == [] then BLANK
    else
      var rest := steps[..|steps| - 1];
      var s, s' := Run(rest, g), Run(steps, g);
      if pid in s.processes && pid in s'.processes
      then Turned(BookOf(rest, g, pid, out), s.processes[pid], s'.processes[pid], out)
      else BLANK
  }

  /** No connection was snapshotted after its process, or had got less by then. */
  predicate EntryOk(c: Connection, fd: nat, p: Process, b: Book, out: bool) {
    && Base(b, fd) <= Got(c.tally, out)
    && (c.tally.marks != [] ==> p.tally.marks != [] && Seen(c.tally, out) <= Base(b, fd))
  }

  /** Every byte of the process since its last snapshot is one of its connections or of one that has gone. */
  ghost predicate Balanced(p: Process, b: Book, out: bool) {
    && b.base.Keys <= p.connections.Keys
    && (forall fd :: fd in p.connections ==> EntryOk(p.connections[fd], fd, p, b, out))
    && Owed(p.tally, out) == Total(Since(p, b, out)) + b.gone
  }

  // ---------------------------------------------------------------- what balances it

  /** Connections go, or nothing happens. */
  lemma RemovalBalances(p: Process, p': Process, b: Book, out: bool)
    requires Balanced(p, b, out) && p'.tally == p.tally
    requires forall fd :: fd in p'.connections ==> fd in p.connections && p'.connections[fd] == p.connections[fd]
    ensures Balanced(p', Turned(b, p, p', out), out)
  {
    hide Total, Owed, Got, Seen, Minus;
    var b' := Turned(b, p, p', out);
    assert forall fd :: fd in p'.connections ==> Base(b', fd) == Base(b, fd);
    TotalSplit(Since(p, b, out), Since(p', b', out), Removed(p, p', b, out));
  }

  /** The process is snapshotted: the connections are what they are, and nothing is gone. */
  lemma SnapshotBalances(p: Process, p': Process, b: Book, out: bool)
    requires p'.tally.marks != p.tally.marks && p'.tally.marks != [] && Owed(p'.tally, out) == 0
    requires forall fd :: fd in p'.connections ==> Owed(p'.connections[fd].tally, out) >= 0
    ensures Balanced(p', Turned(b, p, p', out), out)
  {
    TotalZero(Since(p', Turned(b, p, p', out), out));
    hide Total;
  }

  lemma NoneRemoved(p: Process, p': Process, b: Book, out: bool)
    requires p'.tally.marks == p.tally.marks && b.base.Keys <= p.connections.Keys <= p'.connections.Keys
    ensures Turned(b, p, p', out) == b
  {
    assert Removed(p, p', b, out) == map[];
    TotalZero(map[]);
  }

  /** One connection and the process have got more, by as much. */
  predicate AddsTo(p: Process, p': Process, fd: nat, out: bool) {
    && fd in p'.connections && Got(p'.tally, out) >= Got(p.tally, out)
    && Got(p'.connections[fd].tally, out) == (Got(p'.tally, out) - Got(p.tally, out))
         + (if fd in p.connections then Got(p.connections[fd].tally, out) else 0)
  }

  lemma GainEntries(p: Process, p': Process, fd: nat, b: Book, out: bool)
    requires Balanced(p, b, out) && Gains(p, p', fd, out) && AddsTo(p, p', fd, out)
    ensures b.base.Keys <= p'.connections.Keys
    ensures forall j :: j in p'.connections ==> EntryOk(p'.connections[j], j, p', b, out)
  {
    hide Total, Owed, Got;
  }

  lemma GainSince(p: Process, p': Process, fd: nat, b: Book, out: bool)
    requires Balanced(p, b, out) && Gains(p, p', fd, out) && AddsTo(p, p', fd, out)
    ensures var since, since' := Since(p, b, out), Since(p', b, out);
      && since'.Keys == since.Keys + {fd}
      && (forall j :: j in since && j != fd ==> since'[j] == since[j])
      && since'[fd] == Got(p'.tally, out) - Got(p.tally, out) + if fd in since then since[fd] else 0
  {
    hide Total, Got;
  }

  lemma GainOwed(p: Process, p': Process, fd: nat, out: bool)
    requires Gains(p, p', fd, out)
    ensures Owed(p'.tally, out) - Owed(p.tally, out) == Got(p'.tally, out) - Got(p.tally, out)
  {
  }

  lemma GainBalances(p: Process, p': Process, fd: nat, b: Book, out: bool)
    requires Balanced(p, b, out) && Gains(p, p', fd, out) && AddsTo(p, p', fd, out)
    ensures Balanced(p', b, out)
  {
    hide Total, Got, Gains, EntryOk, AddsTo, Since, Owed;
    GainEntries(p, p', fd, b, out);
    GainSince(p, p', fd, b, out);
    GainOwed(p, p', fd, out);
    TotalGrown(Since(p, b, out), Since(p', b, out), fd);
  }

  /** What an event adds to its connection it adds to the process. */
  lemma AddsAlike(p: Process, e: RWEvent, locals: set<nat>, now: int, g: Config, out: bool)
    ensures var p' := TakesIn(p, e, locals, now, g).0;
      AddsTo(p, p', e.fd, out) && p'.connections.Keys == p.connections.Keys + {e.fd}
  {
    hide Skipped, LooksUp;
  }

  lemma EventBalances(p: Process, e: RWEvent, locals: set<nat>, clock: int, now: int, g: Config, b: Book, out: bool)
    requires ProcessOk(p, clock) && Balanced(p, b, out) && g.capacity >= 1
    ensures var p' := TakesIn(p, e, locals, now, g).0; Balanced(p', Turned(b, p, p', out), out)
  {
    hide TakesIn, ProcessOk, Total, Turned, Got, EntryOk, Owed, Since, AddsTo;
    var p' := TakesIn(p, e, locals, now, g).0;
    AddsAlike(p, e, locals, now, g, out);
    TakesInGains(p, e, locals, clock, now, g, out);
    NoneRemoved(p, p', b, out);
    GainBalances(p, p', e.fd, b, out);
  }

  lemma TickBalances(p: Process, locals: set<nat>, clock: int, now: int, g: Config, b: Book, out: bool)
    requires ProcessOk(p, clock) && Balanced(p, b, out)
    ensures var p' := ProcessTicked(p, locals, now, g); Balanced(p', Turned(b, p, p', out), out)
  {
    var p' := ProcessTicked(p, locals, now, g);
    if Accounted(p'.connections, locals) {
      forall fd | fd in p'.connections
        ensures Owed(p'.connections[fd].tally, out) >= 0
      {
        assert TallyOk(p.connections[fd].tally, clock);
      }
      SnapshotBalances(p, p', b, out);
    } else {
      RemovalBalances(p, p', b, out);
    }
    hide Balanced, Turned;
  }

  // ---------------------------------------------------------------- every run

  lemma BlankBalances(e: RWEvent, now: int, g: Config, out: bool)
    requires g.capacity >= 1
    ensures Balanced(ProcessFor(START, e, now, g), BLANK, out)
  {
    TotalZero(map[]);
  }

  /** A process after a step, if it was there before, and its book. */
  lemma StepBalances(s: State, step: Step, clock: int, g: Config, pid: nat, b: Book, out: bool)
    requires AllOk(s, clock) && clock <= step.now && g.capacity >= 1
    requires pid in s.processes && pid in After(s, step, g).processes && Balanced(s.processes[pid], b, out)
    ensures var p, p' := s.processes[pid], After(s, step, g).processes[pid]; Balanced(p', Turned(b, p, p', out), out)
  {
    hide Balanced, Turned, TakesIn, ProcessTicked, ProcessFor;
    var p, p' := s.processes[pid], After(s, step, g).processes[pid];
    match step {
      case ReadWrite(e, now) =>
        FreshProcess(s, e, clock, now, g);
        if e.pid == pid && p.known {
          EventBalances(p, e, s.locals, now, now, g, b, out);
        } else {
          RemovalBalances(p, p', b, out);
        }
      case Tick(now) =>
        TickBalances(p, s.locals, clock, now, g, b, out);
      case _ =>
        RemovalBalances(p, p', b, out);
    }
  }

  /** A process that a step makes. */
  lemma NewBalances(s: State, step: Step, clock: int, g: Config, pid: nat, out: bool)
    requires AllOk(s, clock) && clock <= step.now && g.capacity >= 1
    requires pid !in s.processes && pid in After(s, step, g).processes
    ensures Balanced(After(s, step, g).processes[pid], BLANK, out)
  {
    hide Balanced, Turned, TakesIn, ProcessTicked, ProcessOk;
    var e, p := step.e, ProcessFor(s, step.e, step.now, g);
    BlankBalances(e, step.now, g, out);
    if p.known {
      FreshProcess(s, e, clock, step.now, g);
      EventBalances(p, e, s.locals, step.now, step.now, g, BLANK, out);
      AddsAlike(p, e, s.locals, step.now, g, out);
      TakesInGains(p, e, s.locals, step.now, step.now, g, out);
      NoneRemoved(p, TakesIn(p, e, s.locals, step.now, g).0, BLANK, out);
    }
  }

  /** After every run every byte that a process got since its last snapshot is in its book. */
  lemma {:induction false} RunBalances(steps: seq<Step>, now: int, g: Config, pid: nat, out: bool)
    requires MayFollow(steps, now, g) && pid in Run(steps, g).processes
    ensures Balanced(Run(steps, g).processes[pid], BookOf(steps, g, pid, out), out)
  {
    hide Balanced, Turned, After, AllOk;
    var n := |steps| - 1;
    var rest := steps[..n];
    assert MayFollow(rest, steps[n].now, g);
    RunOk(rest, steps[n].now, g);
    if pid in Run(rest, g).processes {
      RunBalances(rest, steps[n].now, g, pid, out);
      StepBalances(Run(rest, g), steps[n], steps[n].now, g, pid, BookOf(rest, g, pid, out), out);
    } else {
      NewBalances(Run(rest, g), steps[n], steps[n].now, g, pid, out);
    }
  }

  // ---------------------------------------------------------------- the ledger of a tick

  /** What the connections that a tick records for are due. */
  function CountedDues(p: Process, locals: set<nat>, now: int, g: Config, out: bool): map<nat, nat> {
    map fd | fd in p.connections && Counts(p.connections[fd], locals, now, g) :: Due(p.connections[fd].tally, out)
  }

  /** What of that came before the last snapshot of the process. */
  function Early(p: Process, b: Book, locals: set<nat>, now: int, g: Config, out: bool): map<nat, nat> {
    map fd | fd in p.connections && Counts(p.connections[fd], locals, now, g) ::
      Minus(Base(b, fd), Seen(p.connections[fd].tally, out))
  }

  /** What of that came after it. */
  function Late(p: Process, b: Book, locals: set<nat>, now: int, g: Config, out: bool): map<nat, nat> {
    map fd | fd in p.connections && Counts(p.connections[fd], locals, now, g) ::
      Minus(Got(p.connections[fd].tally, out), Base(b, fd))
  }

  /** What the tick drops of that, as a record is a word. */
  function Dropped(p: Process, locals: set<nat>, now: int, g: Config, out: bool): map<nat, nat> {
    map fd | fd in p.connections && Counts(p.connections[fd], locals, now, g) ::
      Minus(Due(p.connections[fd].tally, out), Word(Due(p.connections[fd].tally, out)))
  }

  /** What the connections that it does not record for got since the last snapshot of the process. */
  function Elsewhere(p: Process, b: Book, locals: set<nat>, now: int, g: Config, out: bool): map<nat, nat> {
    map fd | fd in p.connections && !Counts(p.connections[fd], locals, now, g) ::
      Minus(Got(p.connections[fd].tally, out), Base(b, fd))
  }

  /** What came too early is no more than what the tick leaves out. */
  ghost predicate MadeUp(p: Process, b: Book, locals: set<nat>, now: int, g: Config, out: bool) {
    Total(Early(p, b, locals, now, g, out)) <=
      Total(Elsewhere(p, b, locals, now, g, out)) + b.gone + Total(Dropped(p, locals, now, g, out))
  }

  /** What is due for connections is what is due for the process, less what is not to be recorded
      for connections, and more by what is late. */
  lemma DuesBalance(p: Process, b: Book, locals: set<nat>, now: int, g: Config, out: bool)
    requires Balanced(p, b, out)
    ensures Total(CountedDues(p, locals, now, g, out)) + Total(Elsewhere(p, b, locals, now, g, out)) + b.gone
      == Owed(p.tally, out) + Total(Early(p, b, locals, now, g, out))
  {
    hide Total, Skipped, Idle, Got, Seen;
    TotalSplit(Since(p, b, out), Late(p, b, locals, now, g, out), Elsewhere(p, b, locals, now, g, out));
    TotalSum(Early(p, b, locals, now, g, out), Late(p, b, locals, now, g, out), CountedDues(p, locals, now, g, out));
  }

  /** What a tick records for the connections is their dues as words. */
  lemma RecordsWords(p: Process, locals: set<nat>, clock: int, now: int, g: Config, out: bool)
    requires ProcessOk(p, clock)
    ensures var r := RecordedFor(ProcessTicked(p, locals, now, g).connections, locals, out);
      var dues := CountedDues(p, locals, now, g, out);
      r.Keys == dues.Keys && forall fd :: fd in r ==> r[fd] == Word(dues[fd])
  {
    hide Recorded, Word, Owed, Idle, Accounted;
    forall fd | fd in p.connections && Counts(p.connections[fd], locals, now, g)
      ensures Recorded(Snapped(p.connections[fd].tally, now), out) == Word(Due(p.connections[fd].tally, out))
    {
      assert TallyOk(p.connections[fd].tally, clock);
      RecordedIsDue(p.connections[fd].tally, now, out);
    }
    forall fd | fd in p.connections ensures p.connections[fd].tally.capacity > 0 {
      assert TallyOk(p.connections[fd].tally, clock);
    }
  }

  /** A tick that records for a connection records for the process too. */
  lemma RecordsProcess(p: Process, b: Book, locals: set<nat>, clock: int, now: int, g: Config, out: bool, fd: nat)
    requires ProcessOk(p, clock) && Balanced(p, b, out)
    requires fd in p.connections && Counts(p.connections[fd], locals, now, g)
    ensures var t := ProcessTicked(p, locals, now, g).tally;
      |t.marks| == |p.tally.marks| + 1 >= 2 && Recorded(t, out) == Word(Owed(p.tally, out))
  {
    hide Recorded, Word, Total, Since;
    assert EntryOk(p.connections[fd], fd, p, b, out);
    AccountedBy(ProcessTicked(p, locals, now, g).connections, locals, fd);
    RecordedIsDue(p.tally, now, out);
  }

  lemma OwedWord(p: Process, clock: int, out: bool)
    requires ProcessOk(p, clock)
    ensures Owed(p.tally, out) >= 0 && (Owed(p.tally, out) < WORD ==> Word(Owed(p.tally, out)) == Owed(p.tally, out))
  {
    WordLe(Owed(p.tally, out));
  }

  lemma ProcessExactly(p: Process, b: Book, locals: set<nat>, clock: int, now: int, g: Config, out: bool)
    requires ProcessOk(p, clock) && Balanced(p, b, out)
    ensures TickWithin(p, ProcessTicked(p, locals, now, g), locals, out) <==>
      (Owed(p.tally, out) < WORD ==> MadeUp(p, b, locals, now, g, out))
  {
    hide ProcessTicked, RecordedFor, Recorded, Total, Counts, Balanced, ProcessOk, Owed, Due, Word;
    var r := RecordedFor(ProcessTicked(p, locals, now, g).connections, locals, out);
    var dues := CountedDues(p, locals, now, g, out);
    DuesBalance(p, b, locals, now, g, out);
    RecordsWords(p, locals, clock, now, g, out);
    forall fd | fd in r
      ensures dues[fd] == r[fd] + Dropped(p, locals, now, g, out)[fd]
    {
      WordLe(dues[fd]);
    }
    TotalSum(r, Dropped(p, locals, now, g, out), dues);
    if r == map[] {
      TotalZero(Early(p, b, locals, now, g, out));
    } else {
      var fd := Pick(r);
      RecordsProcess(p, b, locals, clock, now, g, out, fd);
      OwedWord(p, clock, out);
    }
  }

  /** After every run: if the process got fewer than 2^64 bytes, a tick keeps within them if and only if what its
      connections got too early is no more than what other connections, or connections that have
      gone, got since, and what the words of the connections drop. */
  lemma TickExactly(steps: seq<Step>, now: int, g: Config, pid: nat, out: bool)
    requires MayFollow(steps, now, g)
    requires pid in AfterTick(Run(steps, g), now, g).processes
    ensures var s, b := Run(steps, g), BookOf(steps, g, pid, out);
      var p := s.processes[pid];
      TickWithin(p, AfterTick(s, now, g).processes[pid], s.locals, out) <==>
        (Owed(p.tally, out) < WORD ==> MadeUp(p, b, s.locals, now, g, out))
  {
    hide Run, TickWithin, ProcessTicked, ProcessOk, Balanced, BookOf, MadeUp;
    var s := Run(steps, g);
    RunOk(steps, now, g);
    RunBalances(steps, now, g, pid, out);
    ProcessExactly(s.processes[pid], BookOf(steps, g, pid, out), s.locals, now, now, g, out);
  }

  // ---------------------------------------------------------------- connections in step

  /** A connection last snapshotted with its process had then got what the book says. */
  predicate Based(p: Process, b: Book, out: bool) {
    forall fd :: fd in p.connections && InStep(p.connections[fd], p) ==>
      Seen(p.connections[fd].tally, out) == Base(b, fd)
  }

  lemma RemovalBased(p: Process, p': Process, b: Book, out: bool)
    requires Based(p, b, out) && p'.tally == p.tally
    requires forall fd :: fd in p'.connections ==> fd in p.connections && p'.connections[fd] == p.connections[fd]
    ensures Based(p', Turned(b, p, p', out), out)
  {
    hide Total, Removed, Seen;
  }

  lemma TickBased(p: Process, locals: set<nat>, clock: int, now: int, g: Config, b: Book, out: bool)
    requires ProcessOk(p, clock) && Based(p, b, out) && NoneMissed(p, locals, now)
    ensures var p' := ProcessTicked(p, locals, now, g); Based(p', Turned(b, p, p', out), out)
  {
    var p' := ProcessTicked(p, locals, now, g);
    if Accounted(p'.connections, locals) {
      hide Idle, Skipped, Total, Removed;
      forall fd | fd in p.connections ensures p.connections[fd].tally.capacity > 0 {
        assert TallyOk(p.connections[fd].tally, clock);
      }
    } else {
      RemovalBased(p, p', b, out);
      hide Based, Turned;
    }
  }

  lemma EventBased(p: Process, e: RWEvent, locals: set<nat>, clock: int, now: int, g: Config, b: Book, out: bool)
    requires ProcessOk(p, clock) && Balanced(p, b, out) && Based(p, b, out) && g.capacity >= 1
    ensures var p' := TakesIn(p, e, locals, now, g).0; Based(p', Turned(b, p, p', out), out)
  {
    hide TakesIn, ProcessOk, Total, Turned, AddsTo, Since, EntryOk, Owed;
    var p' := TakesIn(p, e, locals, now, g).0;
    AddsAlike(p, e, locals, now, g, out);
    TakesInGains(p, e, locals, clock, now, g, out);
    NoneRemoved(p, p', b, out);
  }

  lemma StepBased(s: State, step: Step, clock: int, g: Config, pid: nat, b: Book, out: bool)
    requires AllOk(s, clock) && clock <= step.now && g.capacity >= 1 && (step.Tick? ==> NoneMissedAt(s, step.now))
    requires pid in s.processes && pid in After(s, step, g).processes
    requires Balanced(s.processes[pid], b, out) && Based(s.processes[pid], b, out)
    ensures var p, p' := s.processes[pid], After(s, step, g).processes[pid]; Based(p', Turned(b, p, p', out), out)
  {
    hide Balanced, Based, Turned, TakesIn, ProcessTicked, ProcessFor;
    var p, p' := s.processes[pid], After(s, step, g).processes[pid];
    match step {
      case ReadWrite(e, now) =>
        FreshProcess(s, e, clock, now, g);
        if e.pid == pid && p.known {
          EventBased(p, e, s.locals, now, now, g, b, out);
        } else {
          RemovalBased(p, p', b, out);
        }
      case Tick(now) =>
        TickBased(p, s.locals, clock, now, g, b, out);
      case _ =>
        RemovalBased(p, p', b, out);
    }
  }

  /** A new process has no snapshot, and so no connection in step. */
  lemma NewBased(s: State, step: Step, g: Config, pid: nat, out: bool)
    requires pid !in s.processes && pid in After(s, step, g).processes
    ensures Based(After(s, step, g).processes[pid], BLANK, out)
  {
    hide Skipped, LooksUp;
  }

  lemma {:induction false} RunBased(steps: seq<Step>, now: int, g: Config, pid: nat, out: bool)
    requires MayFollow(steps, now, g) && TicksApart(steps) && pid in Run(steps, g).processes
    ensures Based(Run(steps, g).processes[pid], BookOf(steps, g, pid, out), out)
  {
    hide Balanced, Based, Turned, After, AllOk, NoneMissedAt;
    var n := |steps| - 1;
    var rest := steps[..n];
    assert MayFollow(rest, steps[n].now, g);
    assert TicksApart(rest);
    RunOk(rest, steps[n].now, g);
    if pid in Run(rest, g).processes {
      RunBalances(rest, steps[n].now, g, pid, out);
      RunBased(rest, steps[n].now, g, pid, out);
      LastMissesNone(steps, g);
      StepBased(Run(rest, g), steps[n], steps[n].now, g, pid, BookOf(rest, g, pid, out), out);
    } else {
      NewBased(Run(rest, g), steps[n], g, pid, out);
    }
  }

  /** If the clock moves between ticks, nothing came too early for a connection in step with its process. */
  lemma InStepNotEarly(steps: seq<Step>, now: int, g: Config, pid: nat, out: bool, fd: nat)
    requires MayFollow(steps, now, g) && TicksApart(steps) && pid in Run(steps, g).processes
    requires var s := Run(steps, g);
      fd in Early(s.processes[pid], BookOf(steps, g, pid, out), s.locals, now, g, out)
      && InStep(s.processes[pid].connections[fd], s.processes[pid])
    ensures Early(Run(steps, g).processes[pid], BookOf(steps, g, pid, out), Run(steps, g).locals, now, g, out)[fd] == 0
  {
    hide Run, BookOf;
    RunBased(steps, now, g, pid, out);
  }
}
