/**
 The protocol as the source runs it: transactions that rewrite rows of a shared database.
 Each method is proved against the transaction function it implements, so the theorems
 about runs hold of the tables these methods leave behind.
 */
module BaseSyncStore {
  import opened Options
  import opened Traces
  import opened BaseSync

  class Database {
    var world: World
    var work: Work
    var ops: seq<Operation>
    var calls: seq<Call>
    var mappings: map<Entity, Mapping>
    ghost var published: seq<Publication>
    ghost var writes: seq<Write>

    ghost function State(): State
      reads this
    {
      BaseSync.State.State(world, work, ops, calls, Log(mappings, published, writes))
    }

    constructor ()
      ensures State() == Init()
    {
      world := World(0, map[], map[]);
      work := Work(map[], map[]);
      ops, calls, mappings := [], [], map[];
      published, writes := [], [];
    }

    method AttemptIsCurrent(ref: AttemptRef) returns (yes: bool)
      ensures yes <==> Current(State(), ref)
    {
      if ref.job !in work.jobs { return false; }
      var j := work.jobs[ref.job];
      if !j.state.Running? || j.attempt != ref.attempt || j.owner != Some(ref.owner) || j.input != ref.input
          || j.round != ref.round {
        return false;
      }
      return j.lease.Some? && j.lease.value > world.now;
    }

    method IsObsolete(o: Operation) returns (yes: bool)
      ensures yes <==> Obsolete(State(), o)
    {
      if o.ref.Some? {
        var current := AttemptIsCurrent(o.ref.value);
        return !current;
      }
      return o.expires <= world.now;
    }

    method Reserve(enabled: bool, held: bool, key: RemoteKey, ref: Option<AttemptRef>) returns (r: Outcome)
      modifies this
      ensures r == ReserveOutcome(old(State()), enabled, held, key, ref)
      ensures State() == BaseSync.Reserve(old(State()), enabled, held, key, ref)
    {
      if !enabled { return Disabled; }
      if ref.Some? {
        var current := AttemptIsCurrent(ref.value);
        if !current { return Superseded; }
      }
      if held { return Busy; }
      var previous := FindActive(ops, key);
      if previous.Some? {
        var row := ops[previous.value];
        var obsolete := IsObsolete(row);
        if !obsolete || !(row.state.Reserved? || row.state.Prepared?) { return Busy; }
        ops := ops[previous.value := row.(state := Cancelled)];
      }
      ops := ops + [Operation(key, ref, Reserved, world.now + RESERVATION_SECONDS, None, None)];
      calls := calls + [Entered];
      return Done;
    }

    method Owns(op: nat, expected: OpState) returns (r: Outcome)
      requires op < |ops|
      ensures r == Owned(State(), op, expected)
    {
      var o := ops[op];
      if o.state != expected { return Superseded; }
      if o.ref.Some? {
        var current := AttemptIsCurrent(o.ref.value);
        return if current then Done else Superseded;
      }
      return if o.expires <= world.now then Superseded else Done;
    }

    method Prepare(op: nat) returns (r: Outcome)
      requires op < |ops| && op < |calls| && calls[op].Entered?
      modifies this
      ensures r == PrepareOutcome(old(State()), op)
      ensures State() == BaseSync.Prepare(old(State()), op)
    {
      var o := ops[op];
      r := Owns(op, Reserved);
      if r.Done? && o.key.entity !in world.entities {
        r := Failure;
      } else if r.Done? && o.ref.Some? &&
                o.ref.value.input != InputDigest(o.key.entity, ContentDigest(world.entities[o.key.entity].fields),
                    o.key.dest) {
        r := InputChanged;
      }
      if !r.Done? {
        calls := calls[op := Raised];
        return;
      }
      var snapshot := world.entities[o.key.entity];
      var mapped := o.key.entity in mappings && mappings[o.key.entity].dest == o.key.dest;
      var record := if mapped then Some(mappings[o.key.entity].record) else LastSettled(ops, o.key);
      ops := ops[op := o.(state := Prepared, snapshot := Some(snapshot), record := record)];
      calls := calls[op := Read(mapped && mappings[o.key.entity].digest == ContentDigest(snapshot.fields), record)];
    }

    method Dispatch(op: nat, enabled: bool, dest: Destination) returns (r: Outcome)
      requires op < |ops| && op < |calls| && calls[op].Located?
      modifies this
      ensures r == DispatchOutcome(old(State()), op, enabled, dest)
      ensures State() == BaseSync.Dispatch(old(State()), op, enabled, dest)
    {
      var o := ops[op];
      r := Disabled;
      if enabled {
        r := Owns(op, Prepared);
        if r.Done? {
          if dest != o.key.dest { r := InputChanged; }
          else if o.key.entity !in world.entities { r := Failure; }
          else if o.snapshot != Some(world.entities[o.key.entity]) { r := InputChanged; }
        }
      }
      if !r.Done? {
        calls := calls[op := Raised];
        return;
      }
      var record := calls[op].record;
      ops := ops[op := o.(state := Dispatched, record := record)];
      calls := calls[op := Sent(record)];
      writes := writes + [Write(op, o.key, o.snapshot.value, record)];
    }

    method Finish(op: nat, record: string, changed: bool) returns (r: Outcome)
      requires op < |ops| && op < |calls| && FinishArgument(calls[op]) == Some((record, changed))
      modifies this
      ensures r == FinishOutcome(old(State()), op, changed)
      ensures State() == BaseSync.Finish(old(State()), op)
    {
      var o := ops[op];
      if o.state != (if changed then Dispatched else Prepared) || o.snapshot.None? {
        calls := calls[op := Raised];
        return Superseded;
      }
      var current := o.ref.None?;
      if o.ref.Some? { current := AttemptIsCurrent(o.ref.value); }
      if current {
        if o.ref.Some? {
          var k := AttemptKey(o.ref.value.job, o.ref.value.attempt);
          if k !in work.attempts || work.attempts[k].worker != o.ref.value.owner || work.attempts[k].ended {
            calls := calls[op := Raised];
            return Superseded;
          }
          var job := work.jobs[o.ref.value.job].(
            state := Succeeded, output := Some(ContentDigest(o.snapshot.value.fields)), owner := None, lease := None);
          work := Work(work.jobs[o.ref.value.job := job], work.attempts[k := work.attempts[k].(ended := true)]);
        }
        var m := Mapping(o.key.dest, record, o.snapshot.value.version, ContentDigest(o.snapshot.value.fields));
        mappings := mappings[o.key.entity := m];
        published := published + [Publication(op, o.key, m)];
      }
      ops := ops[op := o.(state := Settled, record := Some(record))];
      calls := calls[op := Returned];
      return Done;
    }

    method HandleException(op: nat)
      requires op < |ops| && op < |calls| && calls[op].Raised?
      modifies this
      ensures State() == Handle(old(State()), op)
    {
      var o := ops[op];
      if o.state.Dispatched? {
        ops := ops[op := o.(state := Unknown)];
      } else if o.state.Reserved? || o.state.Prepared? {
        ops := ops[op := o.(state := Cancelled)];
      }
      calls := calls[op := Returned];
    }

    // Requeue local waiters one row at a time; `waiters` is the selection made beforehand.
    method ResumeUnblocked(waiters: seq<string>, tables: EntityType -> Destination, held: set<Entity>)
      modifies this
      ensures State() == ResumeAll(old(State()), waiters, tables, held)
    {
      var i := 0;
      while i < |waiters|
        invariant 0 <= i <= |waiters|
        invariant State() == ResumeAll(old(State()), waiters[..i], tables, held)
      {
        assert waiters[..i + 1][..i] == waiters[..i];
        if waiters[i] in work.jobs {
          var j := work.jobs[waiters[i]];
          var occupied := FindActive(ops, RemoteKey(tables(j.entity.kind), j.entity)).Some?;
          if j.state.Waiting? && j.busy && j.attempt < j.maxAttempts && j.entity !in held && !occupied {
            work := work.(jobs := work.jobs[waiters[i] := j.(state := Queued, busy := false)]);
          }
        }
        i := i + 1;
      }
      assert waiters[..i] == waiters;
    }

    // The opening transaction of `run_base_sync_job`.
    method OpenAttempt(ref: AttemptRef) returns (ok: bool)
      modifies this`work
      ensures ok <==> Current(old(State()), ref)
      ensures State() == StartJob(old(State()), ref)
    {
      ok := AttemptIsCurrent(ref);
      if !ok { return; }
      var k := AttemptKey(ref.job, ref.attempt);
      if k !in work.attempts { work := work.(attempts := work.attempts[k := AttemptRow(ref.owner, false)]); }
    }

    method IsUncertain(ref: AttemptRef) returns (yes: bool)
      ensures yes <==> Uncertain(State(), ref)
    {
      var i := 0;
      while i < |ops|
        invariant 0 <= i <= |ops|
        invariant forall k | 0 <= k < i :: !((ops[k].state.Dispatched? || ops[k].state.Unknown?) && ops[k].ref.Some? &&
                    ops[k].ref.value.job == ref.job && ops[k].ref.value.attempt == ref.attempt
                        && ops[k].ref.value.owner == ref.owner)
      {
        var o := ops[i];
        if (o.state.Dispatched? || o.state.Unknown?) && o.ref.Some? && o.ref.value.job == ref.job &&
           o.ref.value.attempt == ref.attempt && o.ref.value.owner == ref.owner {
          return true;
        }
        i := i + 1;
      }
      return false;
    }

    // A superseded attempt records nothing; an uncertain write is never retried.
    method FailJob(ref: AttemptRef, error: ErrorKind) returns (state: Option<JobState>)
      modifies this`work
      ensures State() == BaseSync.FailJob(old(State()), ref, error)
      ensures state.None? <==> !Current(old(State()), ref)
      ensures state.Some? ==> work.jobs[ref.job].state == state.value && !state.value.Running?
      ensures state.Some? && Uncertain(old(State()), ref) ==> state.value.Waiting?
    {
      var current := AttemptIsCurrent(ref);
      if !current { return None; }
      var j := work.jobs[ref.job];
      var uncertain := IsUncertain(ref);
      var held := uncertain || error.BusyError?;
      var retry := !held && !error.InputChangedError? && ref.attempt < j.maxAttempts;
      var next := if held then Waiting else if error.InputChangedError?
                                            then CancelledJob else if retry then Queued else Failed;
      var k := AttemptKey(ref.job, ref.attempt);
      var attempts := if k in work.attempts
          then work.attempts[k := work.attempts[k].(ended := true)] else work.attempts;
      work := Work(work.jobs[ref.job := j.(state := next, owner := None, lease := None, busy := error.BusyError?)],
          attempts);
      return Some(next);
    }

    method FindJob(input: InputDigest) returns (found: Option<string>)
      ensures found.Some? ==> found.value in work.jobs && work.jobs[found.value].input == input
      ensures found.None? ==> !HasJob(work.jobs, input)
    {
      var rest := work.jobs.Keys;
      while rest != {}
        invariant rest <= work.jobs.Keys && forall j | j in work.jobs && j !in rest :: work.jobs[j].input != input
        decreases rest
      {
        var j :| j in rest;
        if work.jobs[j].input == input { return Some(j); }
        rest := rest - {j};
      }
      return None;
    }

    // One entity of `enqueue_dirty_entities`.
    method EnqueueOne(key: RemoteKey, newId: string) returns (queued: bool, inserted: bool, ghost e: Event)
      requires newId !in work.jobs && key.entity in world.entities
      modifies this`work
      ensures State() == Apply(old(State()), e)
      ensures KeepsInputs(old(State()), State()) && Tracked(State(), key)
      ensures work.jobs.Keys == if inserted then old(work).jobs.Keys + {newId} else old(work).jobs.Keys
      ensures (queued <==> State() != old(State())) && (inserted ==> queued)
      ensures e.EnqueueJob? && e == EnqueueJob(key, e.existing, newId)
    {
      var content := ContentDigest(world.entities[key.entity].fields);
      var input := InputDigest(key.entity, content, key.dest);
      queued, inserted, e := false, false, EnqueueJob(key, None, newId);
      if key.entity in mappings && mappings[key.entity].dest == key.dest && mappings[key.entity].digest == content {
        return;
      }
      var existing := FindJob(input);
      e := EnqueueJob(key, existing, newId);
      if existing.Some? {
        var j := work.jobs[existing.value];
        if (j.state.Failed? || j.state.Orphaned?) && j.attempt < j.maxAttempts {
          work := work.(jobs := work.jobs[existing.value := j.(state := Queued, owner := None, lease := None,
              busy := false)]);
          queued := true;
        }
        assert work.jobs[existing.value].input == input;
        return;
      }
      work := work.(jobs := work.jobs[newId := Job(Queued, 0, MAX_ATTEMPTS, None, None, input, key.entity, 1, false,
          None)]);
      assert work.jobs[newId].input == input;
      queued, inserted := true, true;
    }

    /** The scan over the entities, in order, one transaction each: it counts those it queued, and ends early
        exactly when an insertion reaches the limit. */
    method EnqueueAll(keys: seq<RemoteKey>, newIds: seq<string>, limit: nat)
      returns (queued: nat, done: nat, ghost es: seq<Event>)
      requires |newIds| == |keys| && forall i | 0 <= i < |keys| ::
          keys[i].entity in world.entities && newIds[i] !in work.jobs
      requires Distinct(newIds)
      modifies this`work
      ensures State() == Fold(Apply, old(State()), es) && KeepsInputs(old(State()), State())
      ensures Enqueues(es, keys, newIds, done) && queued == Changes(old(State()), es)
      ensures done < |keys| ==> done > 0 && queued >= limit && newIds[done - 1] in work.jobs
      ensures done > 0 ==> WithinLimit(old(State()), es, newIds, work.jobs.Keys, limit, done - 1)
      ensures AllTracked(State(), keys, done)
    {
      queued, done, es := 0, 0, [];
      assert Fold(Apply, State(), []) == State();
      hide Apply, Fold, KeepsInputs, Tracked, AllTracked, Changes, WithinLimit, Enqueues, Distinct, Unused;
      ScanStarts(State(), keys, newIds, limit);
      assert Unused(newIds, 0, work.jobs.Keys) by { NothingUsed(newIds, work.jobs.Keys); }
      while done < |keys|
        invariant done <= |keys| && KeepsInputs(old(State()), State()) && world == old(world)
        invariant State() == Fold(Apply, old(State()), es) && Enqueues(es, keys, newIds, done)
        invariant queued == Changes(old(State()), es)
        invariant WithinLimit(old(State()), es, newIds, work.jobs.Keys, limit, done)
        invariant AllTracked(State(), keys, done)
        invariant Unused(newIds, done, work.jobs.Keys)
      {
        ghost var was, before := State(), es;
        var yes, inserted;
        ghost var e;
        NextUnused(newIds, done, work.jobs.Keys);
        yes, inserted, e := EnqueueOne(keys[done], newIds[done]);
        es := es + [e];
        FoldSnoc(Apply, old(State()), before, e);
        ChangesSnoc(old(State()), before, e);
        EnqueuesSnoc(before, e, keys, newIds, done);
        KeepsJoin(old(State()), was, State());
        TrackedSnoc(was, State(), keys, done);
        WithinSnoc(old(State()), before, e, newIds, was.work.jobs.Keys, work.jobs.Keys, limit, done);
        if yes { queued := queued + 1; }
        done := done + 1;
        if inserted && queued >= limit { return; }
      }
    }

    /** The scan for dirty entities, after its opening recovery of waiters: unless it stops at the limit,
        every entity ends up mirrored as it is or with a job for its present content. */
    method EnqueueDirty(waiters: seq<string>, tables: EntityType -> Destination, held: set<Entity>,
        keys: seq<RemoteKey>, newIds: seq<string>, limit: nat)
      returns (queued: nat, done: nat, ghost trace: seq<Event>)
      requires |newIds| == |keys| && forall i | 0 <= i < |keys| ::
          keys[i].entity in world.entities && newIds[i] !in work.jobs
      requires Distinct(newIds)
      modifies this
      ensures State() == Fold(Apply, old(State()), trace) && KeepsInputs(old(State()), State())
      ensures var resumed := ResumeAll(old(State()), waiters, tables, held);
              exists es :: State() == Fold(Apply, resumed, es) && Enqueues(es, keys, newIds, done)
                           && queued == Changes(resumed, es)
      ensures done <= |keys| && (done == |keys| || queued >= limit)
      ensures AllTracked(State(), keys, done)
    {
      ResumeUnblocked(waiters, tables, held);
      trace := ResumeTrace(old(State()), waiters, tables, held);
      ResumeAllOnlyRequeues(old(State()), waiters, tables, held);
      assert KeepsInputs(old(State()), State()) && world == old(world) && work.jobs.Keys == old(work).jobs.Keys by {
        assert State().work.jobs.Keys == old(State()).work.jobs.Keys;
      }
      hide Apply, ResumeAll, Fold, KeepsInputs, AllTracked, Changes, Enqueues, WithinLimit;
      ghost var resumed := State();
      ghost var es;
      queued, done, es := EnqueueAll(keys, newIds, limit);
      KeepsJoin(old(State()), resumed, State());
      FoldJoin(Apply, old(State()), trace, es);
      EnqueuesBound(es, keys, newIds, done);
      trace := trace + es;
    }
  }

  // One enqueueing transaction for each of the first n entities.
  ghost predicate Enqueues(es: seq<Event>, keys: seq<RemoteKey>, newIds: seq<string>, n: nat) {
    && |es| == n <= |keys| == |newIds|
    && (forall i | 0 <= i < n :: es[i].EnqueueJob? && es[i] == EnqueueJob(keys[i], es[i].existing, newIds[i]))
  }

  lemma EnqueuesSnoc(es: seq<Event>, e: Event, keys: seq<RemoteKey>, newIds: seq<string>, n: nat)
    requires Enqueues(es, keys, newIds, n) && n < |keys| && e.EnqueueJob?
        && e == EnqueueJob(keys[n], e.existing, newIds[n])
    ensures Enqueues(es + [e], keys, newIds, n + 1) && |es| == n
  {}

  lemma EnqueuesBound(es: seq<Event>, keys: seq<RemoteKey>, newIds: seq<string>, n: nat)
    requires Enqueues(es, keys, newIds, n)
    ensures n <= |keys|
  {}

  ghost predicate Distinct(ids: seq<string>) { forall i, j | 0 <= i < j < |ids| :: ids[i] != ids[j] }

  ghost predicate Unused(ids: seq<string>, n: nat, jobs: set<string>) { forall i | n <= i < |ids| :: ids[i] !in jobs }

  lemma NextUnused(ids: seq<string>, n: nat, jobs: set<string>)
    requires Unused(ids, n, jobs) && Distinct(ids) && n < |ids|
    ensures ids[n] !in jobs && Unused(ids, n + 1, jobs) && Unused(ids, n + 1, jobs + {ids[n]})
  {}

  lemma NothingUsed(ids: seq<string>, jobs: set<string>)
    requires forall i | 0 <= i < |ids| :: ids[i] !in jobs
    ensures Unused(ids, 0, jobs)
  {}

  // No insertion among the first n reached the limit.
  ghost predicate WithinLimit(s: State, es: seq<Event>, newIds: seq<string>, jobs: set<string>, limit: nat, n: nat) {
    n <= |es| <= |newIds| && forall i | 0 <= i < n && newIds[i] in jobs :: Changes(s, es[..i + 1]) < limit
  }

  ghost predicate AllTracked(s: State, keys: seq<RemoteKey>, n: nat) {
    n <= |keys| && forall i | 0 <= i < n :: Tracked(s, keys[i])
  }

  lemma ScanStarts(s: State, keys: seq<RemoteKey>, newIds: seq<string>, limit: nat)
    requires |keys| == |newIds|
    ensures Enqueues([], keys, newIds, 0)
    ensures WithinLimit(s, [], newIds, s.work.jobs.Keys, limit, 0) && AllTracked(s, keys, 0) && Changes(s, []) == 0
    ensures KeepsInputs(s, s)
  {}

  lemma TrackedSnoc(s: State, t: State, keys: seq<RemoteKey>, n: nat)
    requires AllTracked(s, keys, n) && n < |keys| && KeepsInputs(s, t) && Tracked(t, keys[n])
    ensures AllTracked(t, keys, n + 1)
  {
    forall i | 0 <= i < n ensures Tracked(t, keys[i]) { TrackedStays(s, t, keys[i]); }
  }

  lemma WithinSnoc(s: State, es: seq<Event>, e: Event, newIds: seq<string>, was: set<string>, jobs: set<string>,
      limit: nat, n: nat)
    requires WithinLimit(s, es, newIds, was, limit, n) && |es| == n < |newIds|
    requires Distinct(newIds) && jobs <= was + {newIds[n]}
    ensures WithinLimit(s, es + [e], newIds, jobs, limit, n)
    ensures (newIds[n] in jobs ==> Changes(s, es + [e]) < limit) ==>
        WithinLimit(s, es + [e], newIds, jobs, limit, n + 1)
  {
    hide Changes;
    forall i | 0 <= i < n && newIds[i] in jobs ensures Changes(s, (es + [e])[..i + 1]) < limit {
      assert (es + [e])[..i + 1] == es[..i + 1];
    }
    assert (es + [e])[..n + 1] == es + [e];
  }

  // How many of the events changed anything.
  ghost function Changes(s: State, es: seq<Event>): nat {
    if es == [] then 0
    else Changes(s, es[..|es| - 1]) + if Fold(Apply, s, es) != Fold(Apply, s, es[..|es| - 1]) then 1 else 0
  }

  lemma ChangesSnoc(s: State, es: seq<Event>, e: Event)
    ensures Changes(s, es + [e]) == Changes(s, es) + if Fold(Apply, s, es + [e]) != Fold(Apply, s, es) then 1 else 0
  {
    assert (es + [e])[..|es|] == es;
    hide Fold;
  }

  // The recovery of waiters as a sequence of transactions.
  lemma {:induction false} ResumeTrace(s: State, waiters: seq<string>, tables: EntityType -> Destination,
      held: set<Entity>)
    returns (trace: seq<Event>)
    ensures Fold(Apply, s, trace) == ResumeAll(s, waiters, tables, held)
  {
    trace := [];
    assert Fold(Apply, s, []) == s;
    hide Fold, Resume, Apply;
    if waiters != [] {
      var job := waiters[|waiters| - 1];
      trace := ResumeTrace(s, waiters[..|waiters| - 1], tables, held);
      var t := Fold(Apply, s, trace);
      if job in t.work.jobs {
        var dest, blocked := tables(t.work.jobs[job].entity.kind), t.work.jobs[job].entity in held;
        FoldSnoc(Apply, s, trace, ResumeWaiter(job, dest, blocked));
        ResumeStep(t, job, dest, blocked);
        trace := trace + [ResumeWaiter(job, dest, blocked)];
      }
    }
  }

  lemma ResumeStep(s: State, job: string, dest: Destination, held: bool)
    ensures Apply(s, ResumeWaiter(job, dest, held)) == Resume(s, job, dest, held)
  {
    hide Resume;
  }

  function ResumeAll(s: State, waiters: seq<string>, tables: EntityType -> Destination, held: set<Entity>): State {
    if waiters == [] then s
    else
      var t := ResumeAll(s, waiters[..|waiters| - 1], tables, held);
      var job := waiters[|waiters| - 1];
      if job !in t.work.jobs then t
      else Resume(t, job, tables(t.work.jobs[job].entity.kind), t.work.jobs[job].entity in held)
  }

  /** Recovering waiters requeues only jobs whose remote key is free, and touches no operation,
      mapping or history: an external operation is never settled by timeout. */
  lemma {:induction false} ResumeAllOnlyRequeues(s: State, waiters: seq<string>, tables: EntityType -> Destination,
      held: set<Entity>)
    ensures var t := ResumeAll(s, waiters, tables, held);
            && t == s.(work := t.work) && t.work.attempts == s.work.attempts && t.work.jobs.Keys == s.work.jobs.Keys
            && forall j | j in s.work.jobs ::
                 t.work.jobs[j] == s.work.jobs[j] ||
                 (&& j in waiters && s.work.jobs[j].state.Waiting? && s.work.jobs[j].busy
                     && s.work.jobs[j].entity !in held
                  && FindActive(s.ops, RemoteKey(tables(s.work.jobs[j].entity.kind), s.work.jobs[j].entity)).None?
                  && t.work.jobs[j] == s.work.jobs[j].(state := Queued, busy := false))
  {
    if waiters != [] {
      ResumeAllOnlyRequeues(s, waiters[..|waiters| - 1], tables, held);
      var t := ResumeAll(s, waiters[..|waiters| - 1], tables, held);
      assert t.ops == s.ops;
      hide FindActive;
    }
  }

  // ---- several transactions in a row ----------------------------------------------------------------

  /** Transactions applied to a reachable state lead to a reachable state. */
  lemma {:induction false} TraceIsRun(es: seq<Event>, more: seq<Event>)
    ensures Fold(Apply, Run(es), more) == Run(es + more)
    decreases |more|
  {
    if more == [] {
      assert es + more == es;
    } else {
      var front, e := more[..|more| - 1], more[|more| - 1];
      TraceIsRun(es, front);
      assert es + more == (es + front) + [e];
      assert (es + more)[..|es + more| - 1] == es + front;
    }
  }

  // The entity is mirrored as it is, or some job has its present content for input.
  ghost predicate Tracked(s: State, key: RemoteKey) {
    key.entity in s.world.entities ==>
      var content := ContentDigest(s.world.entities[key.entity].fields);
      (MapsTo(s, key) && s.log.mappings[key.entity].digest == content)
          || HasJob(s.work.jobs, InputDigest(key.entity, content, key.dest))
  }

  predicate HasJob(jobs: map<string, Job>, input: InputDigest) {
    exists j :: j in jobs && jobs[j].input == input
  }

  // Jobs are added, and the inputs of the old ones stay.
  ghost predicate KeepsInputs(s: State, t: State) {
    t == s.(work := t.work) && forall j | j in s.work.jobs ::
        j in t.work.jobs && t.work.jobs[j].input == s.work.jobs[j].input
  }

  lemma KeepsJoin(s: State, t: State, u: State)
    requires KeepsInputs(s, t) && KeepsInputs(t, u)
    ensures KeepsInputs(s, u)
  {}

  lemma TrackedStays(s: State, t: State, key: RemoteKey)
    requires Tracked(s, key) && KeepsInputs(s, t)
    ensures Tracked(t, key)
  {}
}
