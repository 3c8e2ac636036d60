/**
 What each transaction of the Base protocol does and when, in terms of rows, clocks and answers alone.
 */
module BaseSyncLaws {
  import opened Options
  import opened BaseSync
  import Invariants = BaseSyncInvariants
  import Theorems = BaseSyncTheorems

  // The job row is still as it was claimed, and its lease lasts.
  predicate Owns(s: State, ref: AttemptRef) {
    ref.job in s.work.jobs &&
    var j := s.work.jobs[ref.job];
    && j.state == Running && j.attempt == ref.attempt && j.owner == Some(ref.owner)
    && j.input == ref.input && j.round == ref.round && j.lease.Some? && s.world.now < j.lease.value
  }

  // The worker of the operation may still act.
  predicate Held(s: State, o: Operation) {
    match o.ref
    case Some(ref) => Owns(s, ref)
    case None => s.world.now < o.expires
  }

  predicate Open(o: Operation) { o.state == Reserved || o.state == Prepared }

  predicate Blocking(o: Operation) { Open(o) || o.state == Dispatched || o.state == Unknown }

  // The event is a transaction of this very call.
  predicate OfCall(e: Event, op: nat) {
    (e.PrepareOp? || e.DispatchOp? || e.FinishOp? || e.HandleException?) && e.op == op
  }

  // ---- reservation ---------------------------------------------------------------------------------

  /** An open row whose worker may still act is protected: no reservation, and no event of any other
      call, changes it. */
  lemma HeldRowIsKept(es: seq<Event>, e: Event, i: nat)
    requires i < |Run(es).ops| && Open(Run(es).ops[i]) && Held(Run(es), Run(es).ops[i]) && !OfCall(e, i)
    ensures i < |Run(es + [e]).ops| && Run(es + [e]).ops[i] == Run(es).ops[i]
  {
    Theorems.RunSnoc(es, e);
    Invariants.RunKeeps(es);
    var s := Run(es);
    hide Run;
    if e.ReserveOp? {
      ReserveKeepsHeld(s, e.enabled, e.held, e.key, e.claim, i);
    } else {
      OtherRows(s, e, i);
    }
  }

  lemma ReserveKeepsHeld(s: State, enabled: bool, held: bool, key: RemoteKey, ref: Option<AttemptRef>, i: nat)
    requires i < |s.ops| && Open(s.ops[i]) && Held(s, s.ops[i])
    ensures i < |Reserve(s, enabled, held, key, ref).ops| && Reserve(s, enabled, held, key, ref).ops[i] == s.ops[i]
  {}

  lemma OtherRows(s: State, e: Event, i: nat)
    requires i < |s.ops| && !e.ReserveOp? && !OfCall(e, i)
    ensures i < |Apply(s, e).ops| && Apply(s, e).ops[i] == s.ops[i]
  {
    hide FindActive, LastSettled, Current, KnownRecord, Unchanged, Uncertain;
  }

  /** A reservation is made if and only if the feature is enabled, the caller's own attempt is current,
      the entity is not on hold and every active row of the key is an open one whose worker may no
      longer act. It then cancels those rows, appends one reserved row for 120 seconds and changes
      nothing else; a refused one changes nothing. */
  lemma ReservesIff(es: seq<Event>, enabled: bool, held: bool, key: RemoteKey, ref: Option<AttemptRef>)
    ensures var s, t := Run(es), Run(es + [ReserveOp(enabled, held, key, ref)]);
            var free := forall i | 0 <= i < |s.ops| && s.ops[i].key == key && Blocking(s.ops[i]) ::
                          Open(s.ops[i]) && !Held(s, s.ops[i]);
            if enabled && (ref.Some? ==> Owns(s, ref.value)) && !held && free
                then ReservedBy(s, t, key, ref) else t == s
  {
    var s := Run(es);
    Theorems.RunSnoc(es, ReserveOp(enabled, held, key, ref));
    Invariants.RunKeeps(es);
    hide Run;
    ReserveExactly(s, enabled, held, key, ref);
  }

  // The new row stands last, and what was active under the key is cancelled.
  ghost predicate ReservedBy(s: State, t: State, key: RemoteKey, ref: Option<AttemptRef>) {
    && |t.ops| == |s.ops| + 1 && t.ops[|s.ops|] == Operation(key, ref, Reserved, s.world.now + 120, None, None)
    && (forall i | 0 <= i < |s.ops| ::
          t.ops[i] == if s.ops[i].key == key && Blocking(s.ops[i]) then s.ops[i].(state := Cancelled) else s.ops[i])
    && t == s.(ops := t.ops, calls := s.calls + [Entered])
  }

  lemma ReserveExactly(s: State, enabled: bool, held: bool, key: RemoteKey, ref: Option<AttemptRef>)
    requires Invariants.Exclusive(s.ops)
    ensures var t := Reserve(s, enabled, held, key, ref);
            var free := forall i | 0 <= i < |s.ops| && s.ops[i].key == key && Blocking(s.ops[i]) ::
                          Open(s.ops[i]) && !Held(s, s.ops[i]);
            if enabled && (ref.Some? ==> Owns(s, ref.value)) && !held && free
                then ReservedBy(s, t, key, ref) else t == s
  {
    var previous := FindActive(s.ops, key);
    hide FindActive;
    if previous.Some? { assert Blocking(s.ops[previous.value]); }
  }

  /** What the caller of a reservation is told: disabled, superseded when its own attempt is not current,
      busy when the entity is on hold or some active row of the key is protected, and otherwise done. */
  lemma ReserveTells(es: seq<Event>, enabled: bool, held: bool, key: RemoteKey, ref: Option<AttemptRef>)
    ensures var s := Run(es);
            var free := forall i | 0 <= i < |s.ops| && s.ops[i].key == key && Blocking(s.ops[i]) ::
                          Open(s.ops[i]) && !Held(s, s.ops[i]);
            ReserveOutcome(s, enabled, held, key, ref) ==
              if !enabled then Disabled
              else if ref.Some? && !Owns(s, ref.value) then Superseded
              else if held || !free then Busy
              else Done
  {
    Invariants.RunKeeps(es);
    var s := Run(es);
    var previous := FindActive(s.ops, key);
    if previous.Some? { assert Blocking(s.ops[previous.value]); }
    hide Run, FindActive;
  }

  /** What the later transactions tell: superseded when the row is no longer the caller's to move, an error
      when the entity is gone, changed when input, destination or content are not those expected. */
  lemma TransactionsTell(s: State, op: nat, enabled: bool, dest: Destination)
    requires op < |s.ops|
    ensures var o := s.ops[op]; var present := o.key.entity in s.world.entities;
            && PrepareOutcome(s, op) ==
                 (if o.state != Reserved || !Held(s, o) then Superseded
                  else if !present then Failure
                  else if !Preparable(s, o) then InputChanged
                  else Done)
            && DispatchOutcome(s, op, enabled, dest) ==
                 (if !enabled then Disabled
                  else if o.state != Prepared || !Held(s, o) then Superseded
                  else if dest != o.key.dest then InputChanged
                  else if !present then Failure
                  else if !Dispatchable(s, o, enabled, dest) then InputChanged
                  else Done)
  {}

  // ---- preparation, search, dispatch, answer -----------------------------------------------------------

  predicate Mapped(s: State, key: RemoteKey) {
    key.entity in s.log.mappings && s.log.mappings[key.entity].dest == key.dest
  }

  // The record a prepared row starts from.
  ghost predicate Known(s: State, key: RemoteKey, record: Option<string>) {
    && (Mapped(s, key) ==> record == Some(s.log.mappings[key.entity].record))
    && (forall i | 0 <= i < |s.ops| && s.ops[i].key == key && s.ops[i].state == Settled :: record == s.ops[i].record)
    && (record.Some? ==> Mapped(s, key) || exists i :: 0 <= i < |s.ops| && s.ops[i].key == key
                                                       && s.ops[i].state == Settled)
  }

  predicate Preparable(s: State, o: Operation) {
    && o.state == Reserved && Held(s, o) && o.key.entity in s.world.entities
    && (o.ref.Some? ==>
          o.ref.value.input == InputDigest(o.key.entity, ContentDigest(s.world.entities[o.key.entity].fields),
              o.key.dest))
  }

  /** A call that has reserved is prepared if and only if its worker may still act, the entity exists and
      a job's input is that of its present content. The row then holds the present snapshot and the one
      record known for the key; the call knows whether the mapping already has this content. */
  lemma PreparesIff(es: seq<Event>, op: nat)
    requires op < |Run(es).ops| && op < |Run(es).calls| && Run(es).calls[op] == Entered
    ensures var s, t := Run(es), Run(es + [PrepareOp(op)]); var o := s.ops[op];
            if !Preparable(s, o) then t == s.(calls := s.calls[op := Raised])
            else
              var now := s.world.entities[o.key.entity];
              var same := Mapped(s, o.key) && s.log.mappings[o.key.entity].digest == ContentDigest(now.fields);
              exists record :: Known(s, o.key, record) &&
                t == s.(ops := s.ops[op := o.(state := Prepared, snapshot := Some(now), record := record)],
                        calls := s.calls[op := Read(same, record)])
  {
    var s := Run(es);
    Theorems.RunSnoc(es, PrepareOp(op));
    var o := s.ops[op];
    var record := KnownRecord(s, o.key);
    assert Known(s, o.key, record) by {
      forall i | 0 <= i < |s.ops| && s.ops[i].key == o.key && s.ops[i].state == Settled ensures record ==
          s.ops[i].record {
        Theorems.OneRecordPerKey(es, i, i);
        if !MapsTo(s, o.key) {
          var j :| 0 <= j < |s.ops| && s.ops[j].key == o.key && s.ops[j].state.Settled? && s.ops[j].record == record;
          Theorems.OneRecordPerKey(es, i, j);
        }
      }
    }
    hide Run, KnownRecord, LastSettled;
  }

  /** The search is made only without a known record; it yields the one found, none, or an error when the
      business key is ambiguous. */
  lemma SearchesExactly(s: State, op: nat, found: seq<string>)
    requires op < |s.calls| && s.calls[op].Read? && !s.calls[op].same
    ensures var next :=
              if s.calls[op].record.Some? then Located(s.calls[op].record)
              else if |found| == 0 then Located(None)
              else if |found| == 1 then Located(Some(found[0]))
              else Raised;
            Apply(s, SearchRemote(op, found)) == s.(calls := s.calls[op := next])
  {}

  predicate Dispatchable(s: State, o: Operation, enabled: bool, dest: Destination) {
    && enabled && o.state == Prepared && Held(s, o) && dest == o.key.dest
    && o.key.entity in s.world.entities && o.snapshot == Some(s.world.entities[o.key.entity])
  }

  /** A located call writes if and only if the feature is still enabled, its row is prepared and its
      worker may act, the destination is still the row's and the entity is still the snapshot. The write
      is that snapshot, to that key, addressed to the located record; otherwise nothing is written. */
  lemma DispatchesIff(s: State, op: nat, enabled: bool, dest: Destination)
    requires op < |s.ops| && op < |s.calls| && s.calls[op].Located?
    ensures var t, o, record := Apply(s, DispatchOp(op, enabled, dest)), s.ops[op], s.calls[op].record;
            if !Dispatchable(s, o, enabled, dest) then t == s.(calls := s.calls[op := Raised])
            else
              t == s.(ops := s.ops[op := o.(state := Dispatched, record := record)],
                      calls := s.calls[op := Sent(record)],
                      log := s.log.(writes := s.log.writes + [Write(op, o.key, s.world.entities[o.key.entity],
                          record)]))
  {}

  /** An update is answered by its own record; a create needs exactly one id that is not empty. */
  lemma AnswersExactly(s: State, op: nat, ids: seq<string>)
    requires op < |s.calls| && s.calls[op].Sent?
    ensures var next :=
              if s.calls[op].record.Some? then Answered(s.calls[op].record.value)
              else if |ids| == 1 && |ids[0]| > 0 then Answered(ids[0])
              else Raised;
            Apply(s, RemoteAnswer(op, ids)) == s.(calls := s.calls[op := next])
  {}

  // ---- finish and failure --------------------------------------------------------------------------------

  // The attempt row that a completed job closes.
  predicate AttemptOpen(s: State, ref: AttemptRef) {
    var k := AttemptKey(ref.job, ref.attempt);
    k in s.work.attempts && s.work.attempts[k].worker == ref.owner && !s.work.attempts[k].ended
  }

  // A finish by a worker that may still publish: without an attempt, or under its current one.
  predicate Publishes(s: State, o: Operation) { o.ref.Some? ==> Owns(s, o.ref.value) }

  /** An answered write settles if and only if its row is still dispatched and, for a job whose attempt is
      current, the attempt row is open; a call that found the mapping up to date must still be prepared.
      The row takes the answered record. A worker that may publish publishes exactly the snapshot's version
      and digest and completes exactly its job and attempt; a stale one publishes and completes nothing. */
  lemma FinishesIff(es: seq<Event>, op: nat, record: string)
    requires op < |Run(es).ops| && op < |Run(es).calls|
    requires Run(es).calls[op] == Answered(record) || Run(es).calls[op] == Read(true, Some(record))
    ensures FinishedExactly(Run(es), Run(es + [FinishOp(op)]), op, record)
  {
    Invariants.RunKeeps(es);
    assert Invariants.RowOk(Run(es).ops[op]);
    Theorems.RunSnoc(es, FinishOp(op));
    FinishStep(Run(es), op);
    FinishExactly(Run(es), op, record);
    hide *;
  }

  lemma FinishStep(s: State, op: nat)
    ensures Apply(s, FinishOp(op)) == Finish(s, op)
  {
    hide Finish;
  }

  ghost predicate FinishedExactly(s: State, t: State, op: nat, record: string)
    requires op < |s.ops| && op < |s.calls|
  {
    var o := s.ops[op];
    if o.state != (if s.calls[op].Answered? then Dispatched else Prepared)
       || (o.ref.Some? && Owns(s, o.ref.value) && !AttemptOpen(s, o.ref.value))
    then t == s.(calls := s.calls[op := Raised]) && FinishOutcome(s, op, s.calls[op].Answered?) == Superseded
    else o.snapshot.Some? && Finished(s, t, op, record) && FinishOutcome(s, op, s.calls[op].Answered?) == Done
  }

  ghost predicate Finished(s: State, t: State, op: nat, record: string)
    requires op < |s.ops| && op < |s.calls| && s.ops[op].snapshot.Some?
  {
    var o := s.ops[op];
    var m := Mapping(o.key.dest, record, o.snapshot.value.version, ContentDigest(o.snapshot.value.fields));
    && t.ops == s.ops[op := o.(state := Settled, record := Some(record))]
    && t.calls == s.calls[op := Returned] && t.world == s.world && t.log.writes == s.log.writes
    && t.log.mappings == (if Publishes(s, o) then s.log.mappings[o.key.entity := m] else s.log.mappings)
    && t.log.published == (if Publishes(s, o) then s.log.published + [Publication(op, o.key, m)] else s.log.published)
    && (if o.ref.None? || !Owns(s, o.ref.value) then t.work == s.work
        else
          var ref := o.ref.value;
          var k := AttemptKey(ref.job, ref.attempt);
          && k in s.work.attempts
          && t.work.attempts == s.work.attempts[k := s.work.attempts[k].(ended := true)]
          && t.work.jobs == s.work.jobs[ref.job :=
               s.work.jobs[ref.job].(state := Succeeded, output := Some(m.digest), owner := None, lease := None)])
  }

  lemma FinishExactly(s: State, op: nat, record: string)
    requires op < |s.ops| && op < |s.calls| && Invariants.RowOk(s.ops[op])
    requires s.calls[op] == Answered(record) || s.calls[op] == Read(true, Some(record))
    ensures FinishedExactly(s, Finish(s, op), op, record)
  {
    var o := s.ops[op];
    assert o.ref.Some? ==> (Current(s, o.ref.value) <==> Owns(s, o.ref.value));
    hide Current, Owns;
  }

  /** The exception handler: what may have reached the remote side becomes unknown, what cannot have is
      cancelled, and anything else stays. */
  lemma HandlesExactly(s: State, op: nat)
    requires op < |s.ops| && op < |s.calls| && s.calls[op] == Raised
    ensures var o := s.ops[op];
            var next := if o.state == Dispatched then Unknown else if Open(o) then Cancelled else o.state;
            Apply(s, HandleException(op)) == s.(ops := s.ops[op := o.(state := next)], calls := s.calls[op := Returned])
  {
    assert s.ops[op := s.ops[op]] == s.ops;
  }

  /** Opening a job's run adds its attempt row, under its worker, exactly once and only while the attempt
      is current. */
  lemma OpensIff(s: State, ref: AttemptRef)
    ensures var t, k := Apply(s, OpenAttempt(ref)), AttemptKey(ref.job, ref.attempt);
            if Owns(s, ref) && k !in s.work.attempts
            then t == s.(work := s.work.(attempts := s.work.attempts[k := AttemptRow(ref.owner, false)]))
            else t == s
  {}

  // Some write of this attempt may have reached the remote side.
  ghost predicate MayHaveWritten(s: State, ref: AttemptRef) {
    exists i :: 0 <= i < |s.ops| && (s.ops[i].state == Dispatched || s.ops[i].state == Unknown) && s.ops[i].ref.Some? &&
      s.ops[i].ref.value.job == ref.job && s.ops[i].ref.value.attempt == ref.attempt
          && s.ops[i].ref.value.owner == ref.owner
  }

  /** How a job fails: not at all when its attempt is no longer current; it waits when a write may have
      reached the remote side or the key was busy, is cancelled when its input changed, and otherwise is
      queued again while attempts remain and failed when none do. Its lease is given up and its attempt
      row closed, and no other job changes. */
  lemma FailsExactly(s: State, ref: AttemptRef, error: ErrorKind)
    ensures var t := Apply(s, RecordFailure(ref, error));
            if !Owns(s, ref) then t == s
            else
              var j := s.work.jobs[ref.job];
              var k := AttemptKey(ref.job, ref.attempt);
              var next :=
                if MayHaveWritten(s, ref) then Waiting
                else
                  match error
                  case BusyError => Waiting
                  case InputChangedError => CancelledJob
                  case OtherError => if j.attempt < j.maxAttempts then Queued else Failed;
              && t == s.(work := t.work)
              && t.work.jobs ==
                   s.work.jobs[ref.job := j.(state := next, owner := None, lease := None, busy := error == BusyError)]
              && t.work.attempts ==
                   if k in s.work.attempts then s.work.attempts[k := s.work.attempts[k].(ended := true)]
                                                else s.work.attempts
  {
    assert MayHaveWritten(s, ref) <==> Uncertain(s, ref);
    hide MayHaveWritten, Uncertain;
  }

  /** A waiter is queued again if and only if it waits because its key was busy, has attempts left, is not
      on hold and no row of its key is active any more. */
  lemma ResumesIff(s: State, job: string, dest: Destination, held: bool)
    requires job in s.work.jobs
    ensures var j, t := s.work.jobs[job], Apply(s, ResumeWaiter(job, dest, held));
            var free := forall i | 0 <= i < |s.ops| && s.ops[i].key == RemoteKey(dest, j.entity) :: !Blocking(s.ops[i]);
            if j.state == Waiting && j.busy && j.attempt < j.maxAttempts && !held && free
            then t == s.(work := s.work.(jobs := s.work.jobs[job := j.(state := Queued, busy := false)]))
            else t == s
  {
    var found := FindActive(s.ops, RemoteKey(dest, s.work.jobs[job].entity));
    if found.Some? { assert Blocking(s.ops[found.value]); }
    hide FindActive;
  }

  /** A dirty entity gets a job if and only if none has its present content for input: queued, without an
      attempt, with eight to make. A spent job of that input is queued again while attempts remain. */
  lemma EnqueuesExactly(s: State, key: RemoteKey, newId: string)
    requires key.entity in s.world.entities && newId !in s.work.jobs
    ensures var content := ContentDigest(s.world.entities[key.entity].fields);
            var input := InputDigest(key.entity, content, key.dest);
            var clean := Mapped(s, key) && s.log.mappings[key.entity].digest == content;
            && (var t := Apply(s, EnqueueJob(key, None, newId));
                if clean || (exists j :: j in s.work.jobs && s.work.jobs[j].input == input) then t == s
                else t == s.(work := s.work.(jobs :=
                       s.work.jobs[newId := Job(Queued, 0, 8, None, None, input, key.entity, 1, false, None)])))
            && (forall id | id in s.work.jobs && s.work.jobs[id].input == input ::
                  var j, t := s.work.jobs[id], Apply(s, EnqueueJob(key, Some(id), newId));
                  if !clean && (j.state == Failed || j.state == Orphaned) && j.attempt < j.maxAttempts
                  then t == s.(work := s.work.(jobs :=
                         s.work.jobs[id := j.(state := Queued, owner := None, lease := None, busy := false)]))
                  else t == s)
  {}
}
