/**
 The concurrent map of pkg/sync/map.go as a step system.

 Every thread runs one map operation at a time; one call of `Step` performs one
 atomic action of one thread: an atomic load, a compare-and-swap, an atomic
 store, a lock or unlock, or one action on the fields that only the holder of
 `mu` touches.  A schedule (a sequence of thread and choice pairs) is arbitrary,
 so a statement about `Run` is a statement about every interleaving.

 Go's map values are references, so the tables live in a heap of their own:
 promoting `dirty` publishes the very table the lock holder was writing.
 */
module SyncMapMachine {
  import opened Options

  type Key(==, !new)
  type Value(==, !new)
  type Tid = nat
  type TableId = nat

  /** A heap cell holding a value; compare-and-swap compares cells, not values. */
  datatype Box = Box(address: nat, value: Value)

  /** The pointer inside an entry. */
  datatype Pointer = Nil | Expunged | To(box: Box)

  /** The address of an entry, tagged with the key the entry was made for. */
  datatype EntryId = EntryId(key: Key, serial: nat)

  type Table = map<Key, EntryId>
  type Contents = map<Key, Value>

  datatype ReadOnly = ReadOnly(m: TableId, amended: bool)

  datatype Shared = Shared(
    heap: map<EntryId, Pointer>,
    tables: map<TableId, Table>,
    read: ReadOnly,
    dirty: Option<TableId>,
    misses: int,
    mu: Option<Tid>)

  datatype Op =
    | Load(key: Key)
    | Store(key: Key, box: Box)
    | LoadOrStore(key: Key)
    | LoadAndDelete(key: Key)
    | Range

  /** What an operation hands back; `Actual(None, _)` is the zero value. */
  datatype Answer =
    | Lookup(value: Option<Value>)
    | Done
    | Actual(actual: Option<Value>, loaded: bool)
    | Visits(visited: Contents, all: bool)

  /** How tryLoadOrStore was reached: without the lock, under it with the entry
      taken from read, or under it with the entry taken from dirty. */
  datatype Path = Fast | LockedRead | LockedDirty

  /** The next atomic action of a thread, with the locals it still needs. */
  datatype Pc =
    | Idle
    | FastRead
    | FastLookup(snap: ReadOnly)
    | Acquire
    | SlowRead
    | SlowLookup(snap: ReadOnly)
    | Miss(next: Pc)
    | Publish(next: Pc)
    | Retire(next: Pc)
    | Unlock(next: Pc)
    | LoadSlot(e: EntryId)
    | DeleteLoad(e: EntryId, mine: bool)
    | DeleteCas(e: EntryId, seen: Box, mine: bool)
    | StoreLoad(e: EntryId)
    | StoreCas(e: EntryId, p: Pointer)
    | Unexpunge(e: EntryId)
    | DirtyPut(e: EntryId)
    | StoreLocked(e: EntryId)
    | PutLoad(e: EntryId, path: Path)
    | PutCall(e: EntryId, path: Path)
    | PutCas(e: EntryId, path: Path, box: Box)
    | PutReload(e: EntryId, path: Path, box: Box)
    | DirtyInit(snap: ReadOnly)
    | Expunge(snap: ReadOnly, src: TableId, todo: set<Key>)
    | ExpungeLoad(snap: ReadOnly, src: TableId, todo: set<Key>, k: Key)
    | ExpungeCas(snap: ReadOnly, src: TableId, todo: set<Key>, k: Key)
    | MarkAmended(snap: ReadOnly)
    | CallFn
    | InsertNew(box: Box)
    | RangeIter(m: TableId, todo: set<Key>, visited: Contents)
    | Respond(answer: Answer)
    | Panicked

  /** One completed change of the abstract map: who made it, and its answer. */
  datatype Act = Act(thread: Tid, start: nat, op: Op, answer: Answer)

  /** The abstract contents after a step, and the change that step made, if any. */
  datatype Moment = Moment(contents: Contents, act: Option<Act>)

  datatype Thread = Thread(op: Op, pc: Pc, start: nat, effect: Option<nat>)

  /** A finished call: the moments from `start` up to `end` lie inside it, and
      `effect` is the moment its change of the map happened, if it made one. */
  datatype Call = Call(thread: Tid, op: Op, start: nat, end: nat, effect: Option<nat>, answer: Answer)

  /** `past` and `done` are history: no step reads them. */
  datatype State = State(sh: Shared, threads: map<Tid, Thread>, past: seq<Moment>, done: seq<Call>)

  /** Everything the schedule decides: the operation to start, the value a
      valueFn returns, the address an allocation yields, the key a map iteration
      reaches next, and whether a Range callback asks to stop. */
  datatype Choice = Choice(op: Op, box: Box, serial: nat, key: Key, stop: bool)

  // ---------------------------------------------------------------- lookups

  const NIL_TABLE: TableId := 0

  function TableOf(sh: Shared, m: TableId): Table {
    if m in sh.tables then sh.tables[m] else map[]
  }

  function ReadTable(sh: Shared): Table { TableOf(sh, sh.read.m) }

  function DirtyId(sh: Shared): TableId {
    if sh.dirty.Some? then sh.dirty.value else NIL_TABLE
  }

  /** A nil dirty map reads as an empty one. */
  function DirtyTable(sh: Shared): Table { TableOf(sh, DirtyId(sh)) }

  function Slot(sh: Shared, e: EntryId): Pointer {
    if e in sh.heap then sh.heap[e] else Nil
  }

  function ValueOf(p: Pointer): Option<Value> {
    if p.To? then Some(p.box.value) else None
  }

  /** The entry a fresh locked lookup of k would find. */
  function Current(sh: Shared, k: Key): Option<EntryId> {
    if k in ReadTable(sh) then Some(ReadTable(sh)[k])
    else if k in DirtyTable(sh) then Some(DirtyTable(sh)[k])
    else None
  }

  function CurrentValue(sh: Shared, k: Key): Option<Value> {
    if Current(sh, k).Some? then ValueOf(Slot(sh, Current(sh, k).value)) else None
  }

  /** The plain map this state stands for. */
  function Abs(sh: Shared): Contents {
    map k | k in ReadTable(sh).Keys + DirtyTable(sh).Keys && CurrentValue(sh, k).Some?
      :: CurrentValue(sh, k).value
  }

  function Get(m: Contents, k: Key): Option<Value> {
    if k in m then Some(m[k]) else None
  }

  // ---------------------------------------------------------------- one thread's action

  /** The outcome of one action: the shared state, the thread's next action, and
      the answer of its operation if this action is the one that takes effect. */
  datatype Move = Move(sh: Shared, pc: Pc, effect: Option<Answer>)

  function Goto(sh: Shared, pc: Pc): Move { Move(sh, pc, None) }

  function SetSlot(sh: Shared, e: EntryId, p: Pointer): Shared {
    sh.(heap := sh.heap[e := p])
  }

  function SetDirty(sh: Shared, table: Table): Shared {
    sh.(tables := sh.tables[DirtyId(sh) := table])
  }

  function FastLookupMove(sh: Shared, op: Op, snap: ReadOnly): Move {
    var table := TableOf(sh, snap.m);
    match op
    case Load(k) =>
      Goto(sh, if k in table then LoadSlot(table[k]) else if snap.amended then Acquire else Respond(Lookup(None)))
    case Store(k, _) => Goto(sh, if k in table then StoreLoad(table[k]) else Acquire)
    case LoadOrStore(k) => Goto(sh, if k in table then PutLoad(table[k], Fast) else Acquire)
    case LoadAndDelete(k) =>
      Goto(sh, if k in table then DeleteLoad(table[k], false)
               else if snap.amended then Acquire else Respond(Lookup(None)))
    case Range => Goto(sh, if snap.amended then Acquire else RangeIter(snap.m, table.Keys, map[]))
  }

  /** Where an operation continues once dirty is ready for a new key. */
  function FirstStore(op: Op): Pc {
    if op.Store? then InsertNew(op.box) else CallFn
  }

  function SlowLookupMove(sh: Shared, op: Op, snap: ReadOnly): Move {
    var table := TableOf(sh, snap.m);
    var dirty := DirtyTable(sh);
    match op
    case Load(k) =>
      if k in table then Goto(sh, Unlock(LoadSlot(table[k])))
      else if !snap.amended then Goto(sh, Unlock(Respond(Lookup(None))))
      else Goto(sh, Miss(if k in dirty then LoadSlot(dirty[k]) else Respond(Lookup(None))))
    case LoadAndDelete(k) =>
      if k in table then Goto(sh, Unlock(DeleteLoad(table[k], false)))
      else if !snap.amended then Goto(sh, Unlock(Respond(Lookup(None))))
      else if k in dirty then
        Move(SetDirty(sh, dirty - {k}), Miss(DeleteLoad(dirty[k], true)), Some(Lookup(ValueOf(Slot(sh, dirty[k])))))
      else Goto(sh, Miss(Respond(Lookup(None))))
    case Store(k, _) =>
      if k in table then Goto(sh, Unexpunge(table[k]))
      else if k in dirty then Goto(sh, StoreLocked(dirty[k]))
      else Goto(sh, if snap.amended then FirstStore(op) else DirtyInit(snap))
    case LoadOrStore(k) =>
      if k in table then Goto(sh, Unexpunge(table[k]))
      else if k in dirty then Goto(sh, PutLoad(dirty[k], LockedDirty))
      else Goto(sh, if snap.amended then FirstStore(op) else DirtyInit(snap))
    case Range =>
      if snap.amended then Goto(sh, Publish(RangeIter(DirtyId(sh), dirty.Keys, map[])))
      else Goto(sh, Unlock(RangeIter(snap.m, table.Keys, map[])))
  }

  /** Where LoadOrStore continues once tryLoadOrStore has an answer. */
  function AfterPut(path: Path, answer: Answer): Pc {
    match path
    case Fast => Respond(answer)
    case LockedRead => Unlock(Respond(answer))
    case LockedDirty => Miss(Respond(answer))
  }

  /** tryLoadOrStore found the entry expunged: without the lock the slow path
      follows; under the lock the zero value would be returned. */
  function PutExpunged(path: Path): Pc {
    if path.Fast? then Acquire else AfterPut(path, Actual(None, false))
  }

  function DirtyInitMove(sh: Shared, snap: ReadOnly, c: Choice): Move {
    if sh.dirty.Some? then Goto(sh, MarkAmended(snap))
    else if c.serial in sh.tables then Goto(sh, DirtyInit(snap))
    else Goto(sh.(dirty := Some(c.serial), tables := sh.tables[c.serial := map[]]),
              Expunge(snap, sh.read.m, ReadTable(sh).Keys))
  }

  function ExpungeLoadMove(sh: Shared, pc: Pc): Move
    requires pc.ExpungeLoad?
  {
    var rest := Expunge(pc.snap, pc.src, pc.todo - {pc.k});
    if pc.k !in TableOf(sh, pc.src) then Goto(sh, rest)
    else
      var e := TableOf(sh, pc.src)[pc.k];
      match Slot(sh, e)
      case Nil => Goto(sh, ExpungeCas(pc.snap, pc.src, pc.todo, pc.k))
      case Expunged => Goto(sh, rest)
      case To(_) => Goto(SetDirty(sh, DirtyTable(sh)[pc.k := e]), rest)
  }

  function ExpungeCasMove(sh: Shared, pc: Pc): Move
    requires pc.ExpungeCas?
  {
    var rest := Expunge(pc.snap, pc.src, pc.todo - {pc.k});
    if pc.k !in TableOf(sh, pc.src) then Goto(sh, rest)
    else
      var e := TableOf(sh, pc.src)[pc.k];
      if Slot(sh, e) == Nil then Goto(SetSlot(sh, e, Expunged), rest)
      else Goto(sh, ExpungeLoad(pc.snap, pc.src, pc.todo, pc.k))
  }

  function InsertNewMove(sh: Shared, op: Op, box: Box, c: Choice): Move {
    if op.Range? then Goto(sh, Panicked)
    else
      var e := EntryId(op.key, c.serial);
      if e in sh.heap then Goto(sh, InsertNew(box))
      else if sh.dirty.None? then Goto(sh, Panicked)
      else
        var answer := if op.Store? then Done else Actual(Some(box.value), false);
        Move(SetDirty(SetSlot(sh, e, To(box)), DirtyTable(sh)[op.key := e]), Unlock(Respond(answer)), Some(answer))
  }

  function RangeIterMove(sh: Shared, pc: Pc, c: Choice): Move
    requires pc.RangeIter?
  {
    if pc.todo == {} then Goto(sh, Respond(Visits(pc.visited, true)))
    else if c.key !in pc.todo then Goto(sh, pc)
    else
      var rest := pc.todo - {c.key};
      var v := if c.key in TableOf(sh, pc.m) then ValueOf(Slot(sh, TableOf(sh, pc.m)[c.key])) else None;
      if v.None? then Goto(sh, pc.(todo := rest))
      else if c.stop then Goto(sh, Respond(Visits(pc.visited[c.key := v.value], false)))
      else Goto(sh, RangeIter(pc.m, rest, pc.visited[c.key := v.value]))
  }

  /** Looking a key up, without and then with the lock. */
  function LookupMove(sh: Shared, t: Tid, op: Op, pc: Pc): Move {
    match pc
    case FastRead => Goto(sh, FastLookup(sh.read))
    case FastLookup(snap) => FastLookupMove(sh, op, snap)
    case Acquire => if sh.mu.None? then Goto(sh.(mu := Some(t)), SlowRead) else Goto(sh, Acquire)
    case SlowRead => Goto(sh, SlowLookup(sh.read))
    case SlowLookup(snap) => SlowLookupMove(sh, op, snap)
    case _ => Goto(sh, pc)
  }

  /** missLocked, promotion, and releasing the lock. */
  function LeaveMove(sh: Shared, pc: Pc): Move {
    match pc
    case Miss(next) =>
      Goto(sh.(misses := sh.misses + 1), if sh.misses + 1 < |DirtyTable(sh)| then Unlock(next) else Publish(next))
    case Publish(next) => Goto(sh.(read := ReadOnly(DirtyId(sh), false)), Retire(next))
    case Retire(next) => Goto(sh.(dirty := None, misses := 0), Unlock(next))
    case Unlock(next) => Goto(sh.(mu := None), next)
    case _ => Goto(sh, pc)
  }

  /** entry.load and entry.delete. */
  function DeleteMove(sh: Shared, pc: Pc): Move {
    match pc
    case LoadSlot(e) => Goto(sh, Respond(Lookup(ValueOf(Slot(sh, e)))))
    case DeleteLoad(e, mine) =>
      Goto(sh, if Slot(sh, e).To? then DeleteCas(e, Slot(sh, e).box, mine) else Respond(Lookup(None)))
    case DeleteCas(e, seen, mine) =>
      if Slot(sh, e) == To(seen) then
        Move(SetSlot(sh, e, Nil), Respond(Lookup(Some(seen.value))),
             if mine then None else Some(Lookup(Some(seen.value))))
      else Goto(sh, DeleteLoad(e, mine))
    case _ => Goto(sh, pc)
  }

  function AfterUnexpunge(op: Op, e: EntryId): Pc {
    if op.Store? then StoreLocked(e) else PutLoad(e, LockedRead)
  }

  /** tryStore, unexpungeLocked and storeLocked. */
  function StoreMove(sh: Shared, op: Op, pc: Pc): Move {
    match pc
    case StoreLoad(e) => Goto(sh, if Slot(sh, e) == Expunged then Acquire else StoreCas(e, Slot(sh, e)))
    case StoreCas(e, p) =>
      if Slot(sh, e) == p && op.Store? then Move(SetSlot(sh, e, To(op.box)), Respond(Done), Some(Done))
      else Goto(sh, StoreLoad(e))
    case Unexpunge(e) =>
      if Slot(sh, e) == Expunged then Goto(SetSlot(sh, e, Nil), DirtyPut(e))
      else Goto(sh, AfterUnexpunge(op, e))
    case DirtyPut(e) =>
      if sh.dirty.None? then Goto(sh, Panicked)
      else Goto(SetDirty(sh, DirtyTable(sh)[e.key := e]), AfterUnexpunge(op, e))
    case StoreLocked(e) =>
      if op.Store? then Move(SetSlot(sh, e, To(op.box)), Unlock(Respond(Done)), Some(Done)) else Goto(sh, Panicked)
    case _ => Goto(sh, pc)
  }

  /** tryLoadOrStore. */
  function PutMove(sh: Shared, pc: Pc, c: Choice): Move {
    match pc
    case PutLoad(e, path) =>
      Goto(sh, match Slot(sh, e)
               case Expunged => PutExpunged(path)
               case To(b) => AfterPut(path, Actual(Some(b.value), true))
               case Nil => PutCall(e, path))
    case PutCall(e, path) => Goto(sh, PutCas(e, path, c.box))
    case PutCas(e, path, box) =>
      if Slot(sh, e) == Nil then
        var answer := Actual(Some(box.value), false);
        Move(SetSlot(sh, e, To(box)), AfterPut(path, answer), Some(answer))
      else Goto(sh, PutReload(e, path, box))
    case PutReload(e, path, box) =>
      Goto(sh, match Slot(sh, e)
               case Expunged => PutExpunged(path)
               case To(b) => AfterPut(path, Actual(Some(b.value), true))
               case Nil => PutCas(e, path, box))
    case _ => Goto(sh, pc)
  }

  /** dirtyLocked and the insertion of a new key. */
  function FillMove(sh: Shared, op: Op, pc: Pc, c: Choice): Move {
    match pc
    case DirtyInit(snap) => DirtyInitMove(sh, snap, c)
    case Expunge(snap, src, todo) =>
      Goto(sh, if todo == {} then MarkAmended(snap)
               else if c.key in todo then ExpungeLoad(snap, src, todo, c.key) else pc)
    case ExpungeLoad(_, _, _, _) => ExpungeLoadMove(sh, pc)
    case ExpungeCas(_, _, _, _) => ExpungeCasMove(sh, pc)
    case MarkAmended(snap) => Goto(sh.(read := ReadOnly(snap.m, true)), FirstStore(op))
    case CallFn => Goto(sh, InsertNew(c.box))
    case InsertNew(box) => InsertNewMove(sh, op, box, c)
    case _ => Goto(sh, pc)
  }

  function Action(sh: Shared, t: Tid, op: Op, pc: Pc, c: Choice): Move {
    if pc.FastRead? || pc.FastLookup? || pc.Acquire? || pc.SlowRead? || pc.SlowLookup? then LookupMove(sh, t, op, pc)
    else if pc.Miss? || pc.Publish? || pc.Retire? || pc.Unlock? then LeaveMove(sh, pc)
    else if pc.LoadSlot? || pc.DeleteLoad? || pc.DeleteCas? then DeleteMove(sh, pc)
    else if pc.StoreLoad? || pc.StoreCas? || pc.Unexpunge? || pc.DirtyPut? || pc.StoreLocked? then StoreMove(sh, op, pc)
    else if pc.PutLoad? || pc.PutCall? || pc.PutCas? || pc.PutReload? then PutMove(sh, pc, c)
    else if pc.RangeIter? then RangeIterMove(sh, pc, c)
    else FillMove(sh, op, pc, c)
  }

  // ---------------------------------------------------------------- the whole system

  /** The next state with its history: every step appends one moment. */
  function Record(s: State, sh: Shared, t: Tid, th: Thread, act: Option<Act>, done: seq<Call>): State {
    State(sh, s.threads[t := th], s.past + [Moment(Abs(sh), act)], done)
  }

  /** Thread t, if unknown so far, starts out idle. */
  function ThreadOf(s: State, t: Tid, c: Choice): Thread {
    if t in s.threads then s.threads[t] else Thread(c.op, Idle, 0, None)
  }

  function Step(s: State, t: Tid, c: Choice): State {
    var th := ThreadOf(s, t, c);
    if th.pc.Idle? then
      Record(s, s.sh, t, Thread(c.op, FastRead, |s.past|, None), None, s.done)
    else if th.pc.Respond? then
      Record(s, s.sh, t, th.(pc := Idle, effect := None), None,
             s.done + [Call(t, th.op, th.start, |s.past|, th.effect, th.pc.answer)])
    else
      var move := Action(s.sh, t, th.op, th.pc, c);
      if move.effect.None? then
        Record(s, move.sh, t, th.(pc := move.pc), None, s.done)
      else
        Record(s, move.sh, t, th.(pc := move.pc, effect := Some(|s.past|)),
               Some(Act(t, th.start, th.op, move.effect.value)), s.done)
  }

  /** The zero Map: read is empty and not amended, dirty is nil. */
  const ZERO: Shared := Shared(map[], map[NIL_TABLE := map[]], ReadOnly(NIL_TABLE, false), None, 0, None)

  function Initial(): State {
    State(ZERO, map[], [Moment(map[], None)], [])
  }

  datatype Turn = Turn(thread: Tid, choice: Choice)

  function Run(schedule: seq<Turn>): State {
    if schedule == [] then Initial()
    else
      var last := |schedule| - 1;
      Step(Run(schedule[..last]), schedule[last].thread, schedule[last].choice)
  }
}
