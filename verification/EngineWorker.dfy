/**
 The worker's loops (engine/event.go, engine/worker.go): the state that events and ticks
 update in place, and the two nested iterations of a tick.
 */
module EngineWorker {
  import opened Options
  import opened Tallies
  import opened Engine

  /** Every object sits under its own key: the deletions of a tick, which go by the
      pid and the fd of the object, delete the entry that is being visited. */
  predicate Keyed(processes: map<nat, Process>) {
    forall pid :: pid in processes ==>
      && processes[pid].pid == pid
      && forall fd :: fd in processes[pid].connections ==> processes[pid].connections[fd].fd == fd
  }

  /** A tick keeps a process and its connections under their keys. */
  lemma TickedKeyed(p: Process, locals: set<nat>, now: int, g: Config)
    requires forall fd :: fd in p.connections ==> p.connections[fd].fd == fd
    ensures var p' := ProcessTicked(p, locals, now, g);
      p'.pid == p.pid && forall fd :: fd in p'.connections ==> p'.connections[fd].fd == fd
  {
  }

  class Worker {
    const config: Config
    var processes: map<nat, Process>
    var locals: set<nat>

    ghost function Value(): State
      reads this
    {
      State(processes, locals)
    }

    ghost predicate Valid()
      reads this
    {
      config.capacity >= 1 && Keyed(processes)
    }

    constructor (config: Config)
      requires config.capacity >= 1
      ensures Valid() && this.config == config && Value() == START
    {
      this.config := config;
      processes := map[];
      locals := {};
    }

    /** A known process takes an event in. */
    method TakeIn(bp: Process, e: RWEvent, now: int) returns (after: Process)
      requires Valid() && forall fd :: fd in bp.connections ==> bp.connections[fd].fd == fd
      modifies this`locals
      ensures (after, locals) == TakesIn(bp, e, old(locals), now, config)
      ensures after.pid == bp.pid && forall fd :: fd in after.connections ==> after.connections[fd].fd == fd
    {
      var connections := bp.connections;
      if e.fd !in connections {
        connections := connections[e.fd := Connection(e.fd, e.fdType, None, FRESH)];
      }
      var bc := connections[e.fd];
      if bc.tally.capacity == 0 {
        bc := bc.(tally := Begun(bc.tally, config.capacity, now));
        if bc.fdType == UNKNOWN || bc.fdType == SOCKET {
          locals := e.locals;
          if e.found.Some? {
            bc := bc.(fd := e.fd, fdType := SOCKET, info := e.found);
          }
        }
      }
      after := bp;
      if !Skipped(bc, locals) {
        bc := bc.(tally := Added(bc.tally, e.direction, e.size, now));
        after := bp.(tally := Added(bp.tally, e.direction, e.size, now));
      }
      connections := connections[e.fd := bc];
      assert connections == bp.connections[e.fd := bc];
      after := after.(connections := connections);
    }

    method HandleReadWrite(e: RWEvent, now: int)
      requires Valid()
      modifies this
      ensures Valid() && Value() == AfterReadWrite(old(Value()), e, now, config)
    {
      hide TakesIn;
      ghost var was := Value();
      if e.pid !in processes {
        processes := processes[e.pid := Process(e.pid, false, map[], FRESH)];
      }
      var bp := processes[e.pid];
      if bp.tally.capacity == 0 {
        bp := bp.(known := e.alive, tally := Begun(bp.tally, config.capacity, now));
      }
      processes := processes[e.pid := bp];
      assert processes == was.processes[e.pid := bp] && bp == ProcessFor(was, e, now, config);
      if !bp.known {
        return;
      }
      bp := TakeIn(bp, e, now);
      processes := processes[e.pid := bp];
      assert processes == was.processes[e.pid := bp];
    }

    method HandleClose(pid: nat, fd: nat)
      requires Valid()
      modifies this
      ensures Valid() && Value() == AfterClose(old(Value()), pid, fd)
    {
      if pid in processes {
        var bp := processes[pid];
        processes := processes[pid := bp.(connections := bp.connections - {fd})];
      }
    }

    method HandleExit(pid: nat, tid: nat)
      requires Valid()
      modifies this
      ensures Valid() && Value() == AfterExit(old(Value()), pid, tid)
    {
      if pid != tid {
        return;
      }
      processes := processes - {pid};
    }

    /** One process: idle connections go, the others are snapshotted unless they are skipped. */
    method TickProcess(bp: Process, now: int) returns (after: Process)
      requires forall fd :: fd in bp.connections ==> bp.connections[fd].fd == fd
      ensures after == ProcessTicked(bp, locals, now, config)
    {
      var account := 0;
      var connections := bp.connections;
      var visiting := bp.connections.Keys;
      while visiting != {}
        invariant visiting <= bp.connections.Keys
        invariant connections.Keys == visiting + ConnectionsTicked(bp.connections, locals, now, config).Keys
        invariant forall fd :: fd in connections ==>
          connections[fd] == if fd in visiting then bp.connections[fd]
                             else ConnectionTicked(bp.connections[fd], locals, now)
        invariant account > 0 <==>
          exists fd :: fd in connections && fd !in visiting && !Skipped(connections[fd], locals)
        invariant account >= 0
        decreases visiting
      {
        var fd :| fd in visiting;
        visiting := visiting - {fd};
        var bc := connections[fd];
        if Idle(bc.tally, now, config.timeout) {
          connections := connections - {bc.fd};
        } else if !Skipped(bc, locals) {
          account := account + 1;
          connections := connections[fd := bc.(tally := Snapped(bc.tally, now))];
        }
      }
      assert connections == ConnectionsTicked(bp.connections, locals, now, config);
      after := bp.(connections := connections);
      if account != 0 {
        after := after.(tally := Snapped(bp.tally, now));
      }
    }

    method HandleTick(now: int)
      requires Valid()
      modifies this`processes
      ensures Valid() && Value() == AfterTick(old(Value()), now, config)
    {
      hide ProcessTicked;
      ghost var was := Value();
      var visiting := processes.Keys;
      while visiting != {}
        invariant visiting <= was.processes.Keys && Keyed(processes)
        invariant processes.Keys == visiting + AfterTick(was, now, config).processes.Keys
        invariant forall pid :: pid in processes ==>
          processes[pid] == if pid in visiting then was.processes[pid]
                            else ProcessTicked(was.processes[pid], locals, now, config)
        decreases visiting
      {
        var pid :| pid in visiting;
        visiting := visiting - {pid};
        var bp := processes[pid];
        if Idle(bp.tally, now, config.timeout) {
          processes := processes - {bp.pid};
        } else {
          var after := TickProcess(bp, now);
          TickedKeyed(bp, locals, now, config);
          processes := processes[pid := after];
        }
      }
      assert processes == AfterTick(was, now, config).processes;
    }

    method Handle(step: Step)
      requires Valid()
      modifies this
      ensures Valid() && Value() == After(old(Value()), step, config)
    {
      match step {
        case ReadWrite(e, now) => HandleReadWrite(e, now);
        case Close(pid, fd, _) => HandleClose(pid, fd);
        case Exit(pid, tid, _) => HandleExit(pid, tid);
        case Tick(now) => HandleTick(now);
      }
    }
  }

  /** A worker that handles the steps of a run, in order, ends where the run does. */
  method Work(steps: seq<Step>, config: Config) returns (s: State)
    requires config.capacity >= 1
    ensures s == Run(steps, config)
  {
    var worker := new Worker(config);
    hide After;
    for k := 0 to |steps|
      invariant worker.Valid() && fresh(worker) && worker.config == config && worker.Value() == Run(steps[..k], config)
    {
      assert steps[..k + 1] == steps[..k] + [steps[k]];
      assert steps[..k + 1][..k] == steps[..k];
      worker.Handle(steps[k]);
    }
    assert steps[..|steps|] == steps;
    return State(worker.processes, worker.locals);
  }
}
