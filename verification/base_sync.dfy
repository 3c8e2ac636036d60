/**
 The Base mirror protocol: many workers copy local entities to a remote table.

 Every `with transaction(conn)` block of the protocol is one atomic function on `State`.
 Between two transactions a worker holds only the local variables of `synchronize`, which
 `Call` records, so any interleaving of workers, clocks, edits and job changes is a
 sequence of `Event`s. A crashed worker is one that takes no further events.
 */
module BaseSync {
  import opened Options

  datatype EntityType = Case | Knowledge | Mail | Health
  datatype Entity = Entity(kind: EntityType, id: string)
  datatype Destination = Destination(base: string, table: string)
  datatype RemoteKey = RemoteKey(dest: Destination, entity: Entity)
  datatype Snapshot = Snapshot(fields: string, version: int)

  // Digests are injective: a digest is the value it was taken from.
  datatype ContentDigest = ContentDigest(fields: string)
  datatype InputDigest = InputDigest(entity: Entity, mirror: ContentDigest, dest: Destination)

  datatype JobState = Queued | Running | Waiting | Succeeded | Failed | CancelledJob | Orphaned
  datatype Job = Job(
    state: JobState,
    attempt: nat,
    maxAttempts: nat,
    owner: Option<string>,
    lease: Option<int>,
    input: InputDigest,
    entity: Entity,
    round: nat,
    busy: bool,                       // error_class = 'BaseSyncBusy'
    output: Option<ContentDigest>)
  datatype AttemptKey = AttemptKey(job: string, attempt: nat)
  datatype AttemptRow = AttemptRow(worker: string, ended: bool)
  datatype AttemptRef = AttemptRef(job: string, attempt: nat, owner: string, input: InputDigest, round: nat)

  datatype OpState = Reserved | Prepared | Dispatched | Unknown | Settled | Cancelled
  datatype Operation = Operation(
    key: RemoteKey,
    ref: Option<AttemptRef>,
    state: OpState,
    expires: int,
    snapshot: Option<Snapshot>,       // fields_json and target_version; request_digest is their digest
    record: Option<string>)

  // The local variables of one `synchronize` call, named after the point it has reached.
  datatype Call =
    | Entered
    | Read(same: bool, record: Option<string>)
    | Located(record: Option<string>)
    | Sent(record: Option<string>)
    | Answered(id: string)
    | Raised
    | Returned

  datatype Mapping = Mapping(dest: Destination, record: string, version: int, digest: ContentDigest)

  // History: committed dispatches and published mappings, oldest first.
  datatype Write = Write(op: nat, key: RemoteKey, snapshot: Snapshot, record: Option<string>)
  datatype Publication = Publication(op: nat, key: RemoteKey, mapping: Mapping)

  // The clock and the mirrored entities; `peak` is history, the largest version an entity has had.
  datatype World = World(now: int, entities: map<Entity, Snapshot>, peak: map<Entity, int>)
  datatype Work = Work(jobs: map<string, Job>, attempts: map<AttemptKey, AttemptRow>)
  datatype Log = Log(mappings: map<Entity, Mapping>, published: seq<Publication>, writes: seq<Write>)

  // `ops` is in rowid order and an operation identifier is its rowid; rows are never deleted.
  datatype State = State(world: World, work: Work, ops: seq<Operation>, calls: seq<Call>, log: Log)

  datatype Outcome = Done | Disabled | Busy | Superseded | InputChanged | Failure

  function Init(): State {
    State(World(0, map[], map[]), Work(map[], map[]), [], [], Log(map[], [], []))
  }

  // ---- reads -----------------------------------------------------------------

  predicate Active(o: Operation) {
    o.state.Reserved? || o.state.Prepared? || o.state.Dispatched? || o.state.Unknown?
  }

  predicate Current(s: State, ref: AttemptRef) {
    ref.job in s.work.jobs &&
    var j := s.work.jobs[ref.job];
    j.state.Running? && j.attempt == ref.attempt && j.owner == Some(ref.owner) &&
    j.input == ref.input && j.round == ref.round && j.lease.Some? && j.lease.value > s.world.now
  }

  predicate Obsolete(s: State, o: Operation) {
    if o.ref.Some? then !Current(s, o.ref.value) else o.expires <= s.world.now
  }

  // The row of the partial unique index, if any.
  function FindActive(ops: seq<Operation>, key: RemoteKey): (r: Option<nat>)
    ensures r.Some? ==> r.value < |ops| && ops[r.value].key == key && Active(ops[r.value])
    ensures r.None? ==> forall i | 0 <= i < |ops| :: ops[i].key == key ==> !Active(ops[i])
  {
    if ops == [] then None
    else
      var n := |ops| - 1;
      if ops[n].key == key && Active(ops[n]) then Some(n) else FindActive(ops[..n], key)
  }

  // ORDER BY rowid DESC LIMIT 1 over the settled rows of the key.
  function LastSettled(ops: seq<Operation>, key: RemoteKey): (r: Option<string>)
    ensures r.Some? ==> exists i :: 0 <= i < |ops| && ops[i].key == key && ops[i].state.Settled? && ops[i].record == r
    ensures r.None? ==> forall i | 0 <= i < |ops| :: ops[i].key == key && ops[i].state.Settled? ==> ops[i].record.None?
  {
    if ops == [] then None
    else
      var n := |ops| - 1;
      if ops[n].key == key && ops[n].state.Settled? && ops[n].record.Some? then ops[n].record
      else LastSettled(ops[..n], key)
  }

  predicate MapsTo(s: State, key: RemoteKey) {
    key.entity in s.log.mappings && s.log.mappings[key.entity].dest == key.dest
  }

  // A write is a create when the local `record` is falsy.
  predicate Creates(record: Option<string>) {
    record.None? || record.value == ""
  }

  // ---- transactions of the protocol ---------------------------------------------

  function ReserveOutcome(s: State, enabled: bool, held: bool, key: RemoteKey, ref: Option<AttemptRef>): Outcome {
    if !enabled then Disabled
    else if ref.Some? && !Current(s, ref.value) then Superseded
    else if held then Busy
    else
      var previous := FindActive(s.ops, key);
      if previous.None? then Done
      else
        var o := s.ops[previous.value];
        if (o.state.Reserved? || o.state.Prepared?) && Obsolete(s, o) then Done else Busy
  }

  const RESERVATION_SECONDS := 120

  function Retire(ops: seq<Operation>, key: RemoteKey): (r: seq<Operation>)
    ensures |r| == |ops|
  {
    var previous := FindActive(ops, key);
    if previous.None? then ops else ops[previous.value := ops[previous.value].(state := Cancelled)]
  }

  function Reserve(s: State, enabled: bool, held: bool, key: RemoteKey, ref: Option<AttemptRef>): State {
    if !ReserveOutcome(s, enabled, held, key, ref).Done? then s
    else
      var row := Operation(key, ref, Reserved, s.world.now + RESERVATION_SECONDS, None, None);
      s.(ops := Retire(s.ops, key) + [row], calls := s.calls + [Entered])
  }

  function Owned(s: State, op: nat, expected: OpState): Outcome
    requires op < |s.ops|
  {
    var o := s.ops[op];
    if o.state != expected then Superseded
    else if o.ref.Some? && !Current(s, o.ref.value) then Superseded
    else if o.ref.None? && o.expires <= s.world.now then Superseded
    else Done
  }

  function PrepareOutcome(s: State, op: nat): Outcome
    requires op < |s.ops|
  {
    var o := s.ops[op];
    if !Owned(s, op, Reserved).Done? then Superseded
    else if o.key.entity !in s.world.entities then Failure
    else
      var content := ContentDigest(s.world.entities[o.key.entity].fields);
      if o.ref.Some? && o.ref.value.input != InputDigest(o.key.entity, content, o.key.dest) then InputChanged else Done
  }

  function KnownRecord(s: State, key: RemoteKey): Option<string> {
    if MapsTo(s, key) then Some(s.log.mappings[key.entity].record) else LastSettled(s.ops, key)
  }

  predicate Unchanged(s: State, key: RemoteKey, snapshot: Snapshot) {
    MapsTo(s, key) && s.log.mappings[key.entity].digest == ContentDigest(snapshot.fields)
  }

  // A failing transaction rolls back and leaves the call on its way to the exception handler.
  function Raise(s: State, op: nat): State
    requires op < |s.calls|
  {
    s.(calls := s.calls[op := Raised])
  }

  function Prepare(s: State, op: nat): State {
    if op >= |s.ops| || op >= |s.calls| || !s.calls[op].Entered? then s
    else if !PrepareOutcome(s, op).Done? then Raise(s, op)
    else
      var o := s.ops[op];
      var snapshot := s.world.entities[o.key.entity];
      var record := KnownRecord(s, o.key);
      s.(ops := s.ops[op := o.(state := Prepared, snapshot := Some(snapshot), record := record)],
         calls := s.calls[op := Read(Unchanged(s, o.key, snapshot), record)])
  }

  // The remote search between transactions; `found` is whatever the remote side answered.
  function Locate(s: State, op: nat, found: seq<string>): State {
    if op >= |s.calls| || !s.calls[op].Read? || s.calls[op].same then s
    else
      var record := s.calls[op].record;
      if record.Some? then s.(calls := s.calls[op := Located(record)])
      else if |found| > 1 then Raise(s, op)
      else s.(calls := s.calls[op := Located(if found == [] then None else Some(found[0]))])
  }

  function DispatchOutcome(s: State, op: nat, enabled: bool, dest: Destination): Outcome
    requires op < |s.ops|
  {
    var o := s.ops[op];
    if !enabled then Disabled
    else if !Owned(s, op, Prepared).Done? then Superseded
    else if dest != o.key.dest then InputChanged
    else if o.key.entity !in s.world.entities then Failure
    else if o.snapshot != Some(s.world.entities[o.key.entity]) then InputChanged
    else Done
  }

  function Dispatch(s: State, op: nat, enabled: bool, dest: Destination): State {
    if op >= |s.ops| || op >= |s.calls| || !s.calls[op].Located? then s
    else if !DispatchOutcome(s, op, enabled, dest).Done? then Raise(s, op)
    else
      var o := s.ops[op];
      var record := s.calls[op].record;
      s.(ops := s.ops[op := o.(state := Dispatched, record := record)],
         calls := s.calls[op := Sent(record)],
         log := s.log.(writes := s.log.writes + [Write(op, o.key, o.snapshot.value, record)]))
  }

  // The remote answer: an update needs no identifier, a create must return exactly one.
  function Respond(s: State, op: nat, ids: seq<string>): State {
    if op >= |s.calls| || !s.calls[op].Sent? then s
    else
      var record := s.calls[op].record;
      if record.Some? then s.(calls := s.calls[op := Answered(record.value)])
      else if |ids| == 1 && ids[0] != "" then s.(calls := s.calls[op := Answered(ids[0])])
      else Raise(s, op)
  }

  // What `_finish` is called with: a settled record and whether the remote side was written.
  function FinishArgument(c: Call): Option<(string, bool)> {
    match c
    case Read(true, Some(r)) => Some((r, false))
    case Answered(r) => Some((r, true))
    case _ => None
  }

  predicate StillCurrent(s: State, o: Operation) {
    o.ref.Some? ==> Current(s, o.ref.value)
  }

  function FinishOutcome(s: State, op: nat, changed: bool): Outcome
    requires op < |s.ops|
  {
    var o := s.ops[op];
    if o.state != (if changed then Dispatched else Prepared) || o.snapshot.None? then Superseded
    else if o.ref.None? || !Current(s, o.ref.value) then Done
    else
      var k := AttemptKey(o.ref.value.job, o.ref.value.attempt);
      if k in s.work.attempts && s.work.attempts[k].worker == o.ref.value.owner && !s.work.attempts[k].ended
          then Done else Superseded
  }

  // Publish the mapping and complete the job: only a still-owned attempt reaches this.
  function Publish(s: State, op: nat, record: string): State
    requires op < |s.ops| && s.ops[op].snapshot.Some?
    requires s.ops[op].ref.Some? ==> s.ops[op].ref.value.job in s.work.jobs
    requires s.ops[op].ref.Some? ==> AttemptKey(s.ops[op].ref.value.job, s.ops[op].ref.value.attempt) in s.work.attempts
  {
    var o := s.ops[op];
    var content := ContentDigest(o.snapshot.value.fields);
    var m := Mapping(o.key.dest, record, o.snapshot.value.version, content);
    var t := s.(log := s.log.(mappings := s.log.mappings[o.key.entity := m],
        published := s.log.published + [Publication(op, o.key, m)]));
    if o.ref.None? then t
    else
      var ref := o.ref.value;
      var k := AttemptKey(ref.job, ref.attempt);
      var job := s.work.jobs[ref.job].(state := Succeeded, output := Some(content), owner := None, lease := None);
      t.(work := Work(s.work.jobs[ref.job := job], s.work.attempts[k := s.work.attempts[k].(ended := true)]))
  }

  function Finish(s: State, op: nat): State {
    if op >= |s.ops| || op >= |s.calls| || FinishArgument(s.calls[op]).None? then s
    else
      var (record, changed) := FinishArgument(s.calls[op]).value;
      if !FinishOutcome(s, op, changed).Done? then Raise(s, op)
      else
        var t := if StillCurrent(s, s.ops[op]) then Publish(s, op, record) else s;
        t.(ops := s.ops[op := s.ops[op].(state := Settled, record := Some(record))],
           calls := s.calls[op := Returned])
  }

  // An exception may surface at any point of the call body; the handler runs once.
  function Interrupt(s: State, op: nat): State {
    if op >= |s.calls| || s.calls[op].Returned? then s else Raise(s, op)
  }

  function Handle(s: State, op: nat): State {
    if op >= |s.ops| || op >= |s.calls| || !s.calls[op].Raised? then s
    else
      var o := s.ops[op];
      var ops :=
        if o.state.Dispatched? then s.ops[op := o.(state := Unknown)]
        else if o.state.Reserved? || o.state.Prepared? then s.ops[op := o.(state := Cancelled)]
        else s.ops;
      s.(ops := ops, calls := s.calls[op := Returned])
  }

  // ---- jobs and entities ---------------------------------------------------------

  function SetJob(s: State, job: string, row: Job): State {
    s.(work := s.work.(jobs := s.work.jobs[job := row]))
  }

  const LEASE_SECONDS := 120
  const MAX_ATTEMPTS := 8

  // `existing` is the newest job of the same input, when there is one.
  function Enqueue(s: State, key: RemoteKey, existing: Option<string>, newId: string): State {
    if key.entity !in s.world.entities then s
    else
      var content := ContentDigest(s.world.entities[key.entity].fields);
      var input := InputDigest(key.entity, content, key.dest);
      if MapsTo(s, key) && s.log.mappings[key.entity].digest == content then s
      else if existing.Some? then
        if existing.value in s.work.jobs && s.work.jobs[existing.value].input == input
           && (s.work.jobs[existing.value].state.Failed? || s.work.jobs[existing.value].state.Orphaned?)
           && s.work.jobs[existing.value].attempt < s.work.jobs[existing.value].maxAttempts
        then SetJob(s, existing.value,
             s.work.jobs[existing.value].(state := Queued, owner := None, lease := None, busy := false))
        else s
      else if newId in s.work.jobs || (exists j :: j in s.work.jobs && s.work.jobs[j].input == input) then s
      else SetJob(s, newId, Job(Queued, 0, MAX_ATTEMPTS, None, None, input, key.entity, 1, false, None))
  }

  function Claim(s: State, job: string, worker: string): State {
    if job !in s.work.jobs || !s.work.jobs[job].state.Queued? then s
    else
      var j := s.work.jobs[job];
      SetJob(s, job, j.(state := Running, attempt := j.attempt + 1, owner := Some(worker),
          lease := Some(s.world.now + LEASE_SECONDS)))
  }

  function RenewLease(s: State, job: string, worker: string): State {
    if job !in s.work.jobs || !s.work.jobs[job].state.Running? || s.work.jobs[job].owner != Some(worker) then s
    else SetJob(s, job, s.work.jobs[job].(lease := Some(s.world.now + LEASE_SECONDS)))
  }

  function EndAttempt(attempts: map<AttemptKey, AttemptRow>, k: AttemptKey): map<AttemptKey, AttemptRow> {
    if k in attempts then attempts[k := attempts[k].(ended := true)] else attempts
  }

  function RecoverStale(s: State, job: string): State {
    if job !in s.work.jobs || !s.work.jobs[job].state.Running? || s.work.jobs[job].lease.None?
        || s.work.jobs[job].lease.value >= s.world.now then s
    else
      var j := s.work.jobs[job];
      var next := if j.attempt < j.maxAttempts then Queued else Orphaned;
      s.(work := Work(s.work.jobs[job := j.(state := next, owner := None, lease := None, busy := false)],
                    EndAttempt(s.work.attempts, AttemptKey(job, j.attempt))))
  }

  // Operator stop, Case lifecycle or global stop.
  function CancelJob(s: State, job: string): State {
    if job !in s.work.jobs || s.work.jobs[job].state.Succeeded? || s.work.jobs[job].state.Failed? then s
    else SetJob(s, job, s.work.jobs[job].(state := CancelledJob, owner := None, lease := None))
  }

  // The opening transaction of `run_base_sync_job`.
  function StartJob(s: State, ref: AttemptRef): State {
    var k := AttemptKey(ref.job, ref.attempt);
    if !Current(s, ref) || k in s.work.attempts then s
    else s.(work := s.work.(attempts := s.work.attempts[k := AttemptRow(ref.owner, false)]))
  }

  datatype ErrorKind = BusyError | InputChangedError | OtherError

  predicate Uncertain(s: State, ref: AttemptRef) {
    exists i :: 0 <= i < |s.ops| && (s.ops[i].state.Dispatched? || s.ops[i].state.Unknown?) &&
      s.ops[i].ref.Some? && s.ops[i].ref.value.job == ref.job &&
      s.ops[i].ref.value.attempt == ref.attempt && s.ops[i].ref.value.owner == ref.owner
  }

  function FailJob(s: State, ref: AttemptRef, error: ErrorKind): State {
    if !Current(s, ref) then s
    else
      var j := s.work.jobs[ref.job];
      var held := Uncertain(s, ref) || error.BusyError?;
      var retry := !held && !error.InputChangedError? && ref.attempt < j.maxAttempts;
      var next := if held then Waiting else if error.InputChangedError?
                                            then CancelledJob else if retry then Queued else Failed;
      s.(work := Work(s.work.jobs[ref.job := j.(state := next, owner := None, lease := None, busy := error.BusyError?)],
                    EndAttempt(s.work.attempts, AttemptKey(ref.job, ref.attempt))))
  }

  function Resume(s: State, job: string, dest: Destination, held: bool): State {
    if job !in s.work.jobs || !s.work.jobs[job].state.Waiting? || !s.work.jobs[job].busy
       || s.work.jobs[job].attempt >= s.work.jobs[job].maxAttempts || held
       || FindActive(s.ops, RemoteKey(dest, s.work.jobs[job].entity)).Some?
    then s
    else SetJob(s, job, s.work.jobs[job].(state := Queued, busy := false))
  }

  function WithPeak(peak: map<Entity, int>, e: Entity, v: int): map<Entity, int> {
    peak[e := if e in peak && peak[e] > v then peak[e] else v]
  }

  function Edit(s: State, e: Entity, value: Snapshot): State {
    s.(world := World(s.world.now, s.world.entities[e := value], WithPeak(s.world.peak, e, value.version)))
  }

  // ---- interleavings ---------------------------------------------------------------

  datatype Event =
    | Tick(seconds: nat)
    | EditEntity(entity: Entity, value: Snapshot)
    | RemoveEntity(entity: Entity)
    | EnqueueJob(target: RemoteKey, existing: Option<string>, newId: string)
    | ClaimJob(job: string, worker: string)
    | Heartbeat(job: string, worker: string)
    | RecoverJob(job: string)
    | StopJob(job: string)
    | OpenAttempt(ref: AttemptRef)
    | RecordFailure(ref: AttemptRef, error: ErrorKind)
    | ResumeWaiter(job: string, dest: Destination, held: bool)
    | ReserveOp(enabled: bool, held: bool, key: RemoteKey, claim: Option<AttemptRef>)
    | PrepareOp(op: nat)
    | SearchRemote(op: nat, found: seq<string>)
    | DispatchOp(op: nat, enabled: bool, dest: Destination)
    | RemoteAnswer(op: nat, ids: seq<string>)
    | FinishOp(op: nat)
    | ExceptionIn(op: nat)
    | HandleException(op: nat)

  function Apply(s: State, e: Event): State {
    match e
    case Tick(n) => s.(world := s.world.(now := s.world.now + n))
    case EditEntity(x, v) => Edit(s, x, v)
    case RemoveEntity(x) => s.(world := s.world.(entities := s.world.entities - {x}))
    case EnqueueJob(k, existing, newId) => Enqueue(s, k, existing, newId)
    case ClaimJob(j, w) => Claim(s, j, w)
    case Heartbeat(j, w) => RenewLease(s, j, w)
    case RecoverJob(j) => RecoverStale(s, j)
    case StopJob(j) => CancelJob(s, j)
    case OpenAttempt(r) => StartJob(s, r)
    case RecordFailure(r, k) => FailJob(s, r, k)
    case ResumeWaiter(j, d, h) => Resume(s, j, d, h)
    case ReserveOp(enabled, held, k, r) => Reserve(s, enabled, held, k, r)
    case PrepareOp(op) => Prepare(s, op)
    case SearchRemote(op, found) => Locate(s, op, found)
    case DispatchOp(op, enabled, d) => Dispatch(s, op, enabled, d)
    case RemoteAnswer(op, ids) => Respond(s, op, ids)
    case FinishOp(op) => Finish(s, op)
    case ExceptionIn(op) => Interrupt(s, op)
    case HandleException(op) => Handle(s, op)
  }

  // The state after every event of `es`, in order, from the empty database.
  function Run(es: seq<Event>): State {
    if es == [] then Init() else Apply(Run(es[..|es| - 1]), es[|es| - 1])
  }
}
