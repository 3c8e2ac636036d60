/**
 Guarantees of whole runs of the Base mirror protocol, for every interleaving of workers,
 crashes, lease losses, destination changes and edits.
 */
module BaseSyncTheorems {
  import opened Options
  import opened BaseSync
  import opened BaseSyncInvariants

  lemma RunSnoc(es: seq<Event>, e: Event)
    ensures Run(es + [e]) == Apply(Run(es), e)
  {
    assert (es + [e])[..|es|] == es;
  }

  // ---- exclusion ---------------------------------------------------------------------

  // Per remote key at most one operation is reserved, prepared, dispatched or unknown.
  lemma OneActivePerKey(es: seq<Event>, i: nat, j: nat)
    requires i < |Run(es).ops| && j < |Run(es).ops|
    requires Active(Run(es).ops[i]) && Active(Run(es).ops[j]) && Run(es).ops[i].key == Run(es).ops[j].key
    ensures i == j
  {
    RunKeeps(es);
  }

  // What one event can do to an existing row.
  ghost predicate RowStep(o: Operation, p: Operation, e: Event, i: nat) {
    && p.key == o.key && p.ref == o.ref
    && (o.state.Settled? || o.state.Unknown? || o.state.Cancelled? ==> p == o)
    && (o.state.Dispatched? && p != o ==>
          (e == FinishOp(i) && p.state.Settled?) || (e == HandleException(i) && p.state.Unknown?))
  }

  lemma FinishRows(s: State, op: nat, i: nat)
    requires Inv(s) && i < |s.ops|
    ensures i < |Finish(s, op).ops| && RowStep(s.ops[i], Finish(s, op).ops[i], FinishOp(op), i)
  {
    if op < |s.ops| && FinishArgument(s.calls[op]).Some? {
      assert CallFits(s.ops[op], s.calls[op]);
      var (record, changed) := FinishArgument(s.calls[op]).value;
      if FinishOutcome(s, op, changed).Done? { FinishEffect(s, op, record, changed); }
      hide Inv, Publish;
    }
  }

  lemma ReserveRowsStep(s: State, enabled: bool, held: bool, key: RemoteKey, ref: Option<AttemptRef>, i: nat)
    requires Inv(s) && i < |s.ops|
    ensures var t := Reserve(s, enabled, held, key, ref);
            i < |t.ops| && RowStep(s.ops[i], t.ops[i], ReserveOp(enabled, held, key, ref), i)
  {
    if ReserveOutcome(s, enabled, held, key, ref).Done? {
      RetireEffect(s.ops, key);
      hide Inv, Retire, FindActive;
    }
  }

  lemma PrepareRows(s: State, op: nat, i: nat)
    requires Shape(s) && i < |s.ops|
    ensures i < |Prepare(s, op).ops| && RowStep(s.ops[i], Prepare(s, op).ops[i], PrepareOp(op), i)
  {
    hide KnownRecord, Unchanged, Shape;
  }

  lemma DispatchRowsStep(s: State, op: nat, enabled: bool, dest: Destination, i: nat)
    requires i < |s.ops|
    ensures i < |Dispatch(s, op, enabled, dest).ops|
    ensures RowStep(s.ops[i], Dispatch(s, op, enabled, dest).ops[i], DispatchOp(op, enabled, dest), i)
  {}

  lemma RowsStep(s: State, e: Event, i: nat)
    requires Inv(s) && i < |s.ops|
    ensures i < |Apply(s, e).ops| && RowStep(s.ops[i], Apply(s, e).ops[i], e, i)
  {
    assert CallFits(s.ops[i], s.calls[i]);
    hide Inv, Reserve, Prepare, Dispatch, Finish;
    match e
    case ReserveOp(enabled, held, key, claim) => ReserveRowsStep(s, enabled, held, key, claim, i);
    case PrepareOp(op) => PrepareRows(s, op, i);
    case DispatchOp(op, enabled, dest) => DispatchRowsStep(s, op, enabled, dest, i);
    case FinishOp(op) => FinishRows(s, op, i);
    case HandleException(op) =>
    case _ =>
      if CallEvent(e) { CallEventEffect(s, e); } else { OutsideProtocol(s, e); }
      hide Apply;
  }

  /** A dispatched operation leaves that state only through an event of its own worker:
      a recorded result settles it, an exception makes it unknown. */
  lemma DispatchedLeavesThroughItsWorker(es: seq<Event>, e: Event, i: nat)
    requires i < |Run(es).ops| && Run(es).ops[i].state.Dispatched?
    requires i < |Run(es + [e]).ops| ==> Run(es + [e]).ops[i] != Run(es).ops[i]
    ensures i < |Run(es + [e]).ops|
    ensures (e == FinishOp(i) && Run(es + [e]).ops[i].state.Settled?)
            || (e == HandleException(i) && Run(es + [e]).ops[i].state.Unknown?)
  {
    RunSnoc(es, e);
    RunKeeps(es);
    RowsStep(Run(es), e, i);
  }

  lemma WritesExtend(s: State, e: Event)
    ensures s.log.writes <= Apply(s, e).log.writes
    ensures Apply(s, e).log.writes != s.log.writes ==>
              e.DispatchOp? && e.op < |s.ops| && e.op < |s.calls| && s.calls[e.op].Located?
                  && DispatchOutcome(s, e.op, e.enabled, e.dest).Done?
              && Apply(s, e).log.writes == s.log.writes + [Write(e.op, s.ops[e.op].key, s.ops[e.op].snapshot.value,
                  s.calls[e.op].record)]
  {
    if !ProtocolEvent(e) { OutsideProtocol(s, e); } else {
      hide Retire, KnownRecord, PrepareOutcome, FinishOutcome, Current;
    }
  }

  lemma UnknownStep(s: State, e: Event, i: nat)
    requires Inv(s) && i < |s.ops| && s.ops[i].state.Unknown?
    ensures var t := Apply(s, e);
            && i < |t.ops| && t.ops[i] == s.ops[i] && s.log.writes <= t.log.writes
            && forall n | |s.log.writes| <= n < |t.log.writes| :: t.log.writes[n].key != s.ops[i].key
  {
    RowsStep(s, e, i);
    WritesExtend(s, e);
    hide Apply;
  }

  /** After an unknown outcome the row never changes again and nothing is ever dispatched
      to its key. */
  lemma {:induction false} UnknownBlocksItsKey(es: seq<Event>, more: seq<Event>, i: nat)
    requires i < |Run(es).ops| && Run(es).ops[i].state.Unknown?
    ensures var s := Run(es); var t := Run(es + more);
            && i < |t.ops| && t.ops[i] == s.ops[i]
            && s.log.writes <= t.log.writes
            && forall n | |s.log.writes| <= n < |t.log.writes| :: t.log.writes[n].key != s.ops[i].key
    decreases |more|
  {
    if more == [] {
      assert es + more == es;
    } else {
      var front, e := more[..|more| - 1], more[|more| - 1];
      UnknownBlocksItsKey(es, front, i);
      assert es + more == (es + front) + [e];
      RunSnoc(es + front, e);
      RunKeeps(es + front);
      hide Run, Apply;
      UnknownStep(Run(es + front), e, i);
      hide Inv;
    }
  }

  /** Between two dispatches to one key the earlier was settled, and the later one addresses
      the record that the earlier one settled with. */
  lemma LaterWriteFollowsSettlement(es: seq<Event>, m: nat, n: nat)
    requires m < n < |Run(es).log.writes| && Run(es).log.writes[m].key == Run(es).log.writes[n].key
    ensures var s := Run(es); var first := s.log.writes[m].op;
            first < |s.ops| && s.ops[first].state.Settled? && s.ops[first].record.Some?
            && s.log.writes[n].record == s.ops[first].record
  {
    RunKeeps(es);
    var s := Run(es);
    assert WriteOk(s.ops, s.log.writes[m]);
    assert RowOk(s.ops[s.log.writes[m].op]);
  }

  // ---- one remote identity ----------------------------------------------------------------

  /** All settled operations of a key, and the mapping when it points at that key, carry one
      record id, also when stale workers finish late or the destination moves away and back. */
  lemma OneRecordPerKey(es: seq<Event>, i: nat, j: nat)
    requires i < |Run(es).ops| && j < |Run(es).ops|
    requires Run(es).ops[i].state.Settled? && Run(es).ops[j].state.Settled? && Run(es).ops[i].key == Run(es).ops[j].key
    ensures Run(es).ops[i].record.Some? && Run(es).ops[i].record == Run(es).ops[j].record
    ensures MapsTo(Run(es), Run(es).ops[i].key) ==>
              Some(Run(es).log.mappings[Run(es).ops[i].key.entity].record) == Run(es).ops[i].record
  {
    RunKeeps(es);
    var s := Run(es);
    assert RowOk(s.ops[i]);
    var e := s.ops[i].key.entity;
    if MapsTo(s, s.ops[i].key) {
      assert PublicationOk(s.ops, s.log.published[LastPublication(s.log.published, e).value]);
    }
  }

  // ---- one create -----------------------------------------------------------------------------

  ghost predicate OneCreatePerKey(s: State) {
    forall m, n | 0 <= m < n < |s.log.writes| && s.log.writes[m].key == s.log.writes[n].key ::
      !(Creates(s.log.writes[m].record) && Creates(s.log.writes[n].record))
  }

  // The record ids that remote searches answer with during the run.
  ghost predicate SearchesWithin(es: seq<Event>, ids: iset<string>) {
    forall k | 0 <= k < |es| && es[k].SearchRemote? :: forall x | x in es[k].found :: x in ids
  }

  ghost predicate CallNonEmpty(c: Call) {
    match c
    case Read(_, r) => r != Some("")
    case Located(r) => r != Some("")
    case Sent(r) => r != Some("")
    case Answered(id) => id != ""
    case _ => true
  }

  ghost predicate NonEmptyIds(s: State) {
    && (forall i | 0 <= i < |s.ops| :: s.ops[i].record != Some(""))
    && (forall i | 0 <= i < |s.calls| :: CallNonEmpty(s.calls[i]))
    && (forall e | e in s.log.mappings :: s.log.mappings[e].record != "")
  }

  lemma NonEmptyFinish(s: State, op: nat)
    requires NonEmptyIds(s) && |s.calls| == |s.ops|
    ensures NonEmptyIds(Finish(s, op))
  {
    if op < |s.ops| && FinishArgument(s.calls[op]).Some? {
      assert CallNonEmpty(s.calls[op]);
      var (record, changed) := FinishArgument(s.calls[op]).value;
      if FinishOutcome(s, op, changed).Done? {
        FinishEffect(s, op, record, changed);
        hide Finish, Publish;
      }
    }
  }

  lemma NonEmptyReserve(s: State, key: RemoteKey, enabled: bool, held: bool, ref: Option<AttemptRef>)
    requires NonEmptyIds(s)
    ensures NonEmptyIds(Reserve(s, enabled, held, key, ref))
  {
    hide ReserveOutcome;
  }

  lemma NonEmptyPrepare(s: State, op: nat)
    requires NonEmptyIds(s)
    ensures NonEmptyIds(Prepare(s, op))
  {
    hide PrepareOutcome, Unchanged;
  }

  lemma NonEmptyDispatch(s: State, op: nat, enabled: bool, dest: Destination)
    requires NonEmptyIds(s)
    ensures NonEmptyIds(Dispatch(s, op, enabled, dest))
  {
    if op < |s.calls| { assert CallNonEmpty(s.calls[op]); }
    hide DispatchOutcome;
  }

  lemma NonEmptyCall(s: State, op: nat, c: Call)
    requires NonEmptyIds(s) && op < |s.calls| && CallNonEmpty(c)
    ensures NonEmptyIds(s.(calls := s.calls[op := c]))
  {}

  lemma NonEmptySearch(s: State, op: nat, found: seq<string>)
    requires NonEmptyIds(s) && "" !in found
    ensures NonEmptyIds(Locate(s, op, found))
  {
    if op < |s.calls| && s.calls[op].Read? && !s.calls[op].same {
      assert CallNonEmpty(s.calls[op]);
      var c := Locate(s, op, found).calls[op];
      assert CallNonEmpty(c);
      NonEmptyCall(s, op, c);
    }
  }

  lemma NonEmptyRespond(s: State, op: nat, ids: seq<string>)
    requires NonEmptyIds(s)
    ensures NonEmptyIds(Respond(s, op, ids))
  {
    if op < |s.calls| && s.calls[op].Sent? {
      assert CallNonEmpty(s.calls[op]);
      var c := Respond(s, op, ids).calls[op];
      assert CallNonEmpty(c);
      NonEmptyCall(s, op, c);
    }
  }

  lemma NonEmptyStep(s: State, e: Event)
    requires NonEmptyIds(s) && |s.calls| == |s.ops|
    requires e.SearchRemote? ==> "" !in e.found
    ensures NonEmptyIds(Apply(s, e))
  {
    if !ProtocolEvent(e) {
      OutsideProtocol(s, e);
      hide Apply;
    } else {
      hide NonEmptyIds, Reserve, Prepare, Dispatch, Finish, Locate, Respond;
      match e
      case FinishOp(op) => NonEmptyFinish(s, op);
      case ReserveOp(enabled, held, key, ref) => NonEmptyReserve(s, key, enabled, held, ref);
      case PrepareOp(op) => NonEmptyPrepare(s, op);
      case DispatchOp(op, enabled, d) => NonEmptyDispatch(s, op, enabled, d);
      case SearchRemote(op, found) => NonEmptySearch(s, op, found);
      case RemoteAnswer(op, ids) => NonEmptyRespond(s, op, ids);
      case ExceptionIn(op) => if op < |s.calls| { NonEmptyCall(s, op, Raised); }
      case HandleException(op) => NonEmptyHandle(s, op);
    }
  }

  lemma NonEmptyHandle(s: State, op: nat)
    requires NonEmptyIds(s)
    ensures NonEmptyIds(Handle(s, op))
  {}

  lemma {:induction false} NonEmptyRun(es: seq<Event>, ids: iset<string>)
    requires SearchesWithin(es, ids) && "" !in ids
    ensures NonEmptyIds(Run(es))
  {
    if es != [] {
      var front := es[..|es| - 1];
      assert SearchesWithin(front, ids);
      NonEmptyRun(front, ids);
      RunKeeps(front);
      NonEmptyStep(Run(front), es[|es| - 1]);
    }
  }

  lemma OneCreateWhenSearchesAreNonEmpty(es: seq<Event>, ids: iset<string>)
    requires SearchesWithin(es, ids) && "" !in ids
    ensures OneCreatePerKey(Run(es))
  {
    NonEmptyRun(es, ids);
    var s := Run(es);
    forall m, n | 0 <= m < n < |s.log.writes| && s.log.writes[m].key == s.log.writes[n].key
      ensures !Creates(s.log.writes[n].record)
    { LaterWriteFollowsSettlement(es, m, n); }
  }

  // One undisturbed cycle up to the dispatch, from any state in which the key is free.
  lemma CycleReserve(s: State, key: RemoteKey)
    requires |s.calls| == |s.ops| && FindActive(s.ops, key).None?
    ensures var t := Reserve(s, true, false, key, None);
            t == s.(ops := s.ops + [Operation(key, None, Reserved, s.world.now + RESERVATION_SECONDS, None, None)],
                calls := s.calls + [Entered])
  {}

  lemma LastSettledSnoc(ops: seq<Operation>, o: Operation, key: RemoteKey)
    requires !o.state.Settled?
    ensures LastSettled(ops + [o], key) == LastSettled(ops, key)
  {
    assert (ops + [o])[..|ops|] == ops;
  }

  lemma CyclePrepare(s: State, key: RemoteKey)
    requires |s.calls| == |s.ops| && FindActive(s.ops, key).None?
    requires key.entity in s.world.entities && !Unchanged(s, key, s.world.entities[key.entity])
    ensures var n := |s.ops|; var t := Prepare(Reserve(s, true, false, key, None), n);
            && |t.ops| == |t.calls| == n + 1 && t.ops[..n] == s.ops && t.world.now == s.world.now
                && t.world.entities == s.world.entities
            && t.log.writes == s.log.writes && t.log.mappings == s.log.mappings
            && t.ops[n] == Operation(key, None, Prepared, s.world.now + RESERVATION_SECONDS,
                Some(s.world.entities[key.entity]), KnownRecord(s, key))
            && t.calls[n] == Read(false, KnownRecord(s, key))
  {
    CycleReserve(s, key);
    var r := Reserve(s, true, false, key, None);
    LastSettledSnoc(s.ops, r.ops[|s.ops|], key);
    hide Reserve, FindActive;
  }

  lemma CycleDispatch(s: State, key: RemoteKey, found: seq<string>)
    requires |s.calls| == |s.ops| && FindActive(s.ops, key).None? && |found| <= 1
    requires key.entity in s.world.entities && !Unchanged(s, key, s.world.entities[key.entity])
    ensures var n := |s.ops|;
            var record := if KnownRecord(s, key).Some? || found == [] then KnownRecord(s, key) else Some(found[0]);
            var t := Dispatch(Locate(Prepare(Reserve(s, true, false, key, None), n), n, found), n, true, key.dest);
            && |t.ops| == |t.calls| == n + 1 && t.ops[..n] == s.ops && t.world.now == s.world.now
                && t.world.entities == s.world.entities && t.log.mappings == s.log.mappings
            && t.log.writes == s.log.writes + [Write(n, key, s.world.entities[key.entity], record)]
            && t.ops[n] == Operation(key, None, Dispatched, s.world.now + RESERVATION_SECONDS,
                Some(s.world.entities[key.entity]), record)
            && t.calls[n] == Sent(record)
  {
    CyclePrepare(s, key);
    hide Reserve, Prepare, KnownRecord, FindActive, Unchanged;
  }

  lemma CycleFinish(s: State, op: nat, record: string)
    requires op < |s.ops| == |s.calls| && s.ops[op].state.Dispatched? && s.ops[op].ref.None? && s.ops[op].snapshot.Some?
    requires s.calls[op] == Sent(Some(record))
    ensures var t := Finish(Respond(s, op, []), op); var o := s.ops[op];
            && t.ops == s.ops[op := o.(state := Settled, record := Some(record))] && |t.calls| == |t.ops|
            && t.world.entities == s.world.entities && t.log.writes == s.log.writes
            && t.log.mappings == s.log.mappings[o.key.entity := Mapping(o.key.dest, record, o.snapshot.value.version,
                ContentDigest(o.snapshot.value.fields))]
  {}

  // One more event of a run, with the answers of searches confined to `ids`.
  lemma RunOn(es: seq<Event>, e: Event, ids: iset<string>) returns (next: seq<Event>)
    requires SearchesWithin(es, ids)
    requires e.SearchRemote? ==> forall x | x in e.found :: x in ids
    ensures next == es + [e] && Run(next) == Apply(Run(es), e) && SearchesWithin(next, ids)
  {
    next := es + [e];
    RunSnoc(es, e);
    hide Run, Apply;
    forall k | 0 <= k < |next| && next[k].SearchRemote? ensures forall x | x in next[k].found :: x in ids {
      if k < |es| { assert next[k] == es[k]; }
    }
  }

  lemma DispatchRun(es: seq<Event>, key: RemoteKey, found: seq<string>, ids: iset<string>) returns (next: seq<Event>)
    requires SearchesWithin(es, ids) && forall x | x in found :: x in ids
    ensures SearchesWithin(next, ids)
    ensures var n := |Run(es).ops|;
            Run(next) == Dispatch(Locate(Prepare(Reserve(Run(es), true, false, key, None), n), n, found), n, true,
                key.dest)
  {
    var n := |Run(es).ops|;
    hide Run, Reserve, Prepare, Locate, Dispatch, SearchesWithin;
    next := RunOn(es, ReserveOp(true, false, key, None), ids);
    next := RunOn(next, PrepareOp(n), ids);
    next := RunOn(next, SearchRemote(n, found), ids);
    next := RunOn(next, DispatchOp(n, true, key.dest), ids);
  }

  ghost const ENTITY := Entity(Case, "c")
  ghost const KEY := RemoteKey(Destination("b", "t"), ENTITY)

  lemma EmptyIdSettles(a: State, b: State)
    requires a.ops == [] && a.calls == [] && a.log == Init().log && ENTITY in a.world.entities
    requires b == Finish(Respond(Dispatch(Locate(Prepare(Reserve(a, true, false, KEY, None), 0), 0, [""]), 0, true,
        KEY.dest), 0, []), 0)
    ensures |b.ops| == |b.calls| == 1 && b.ops[0].state.Settled? && b.world.entities == a.world.entities
    ensures MapsTo(b, KEY) && b.log.mappings[ENTITY].record == ""
    ensures b.log.mappings[ENTITY].digest == ContentDigest(a.world.entities[ENTITY].fields)
    ensures b.log.writes == [Write(0, KEY, a.world.entities[ENTITY], Some(""))]
  {
    CycleDispatch(a, KEY, [""]);
    var d := Dispatch(Locate(Prepare(Reserve(a, true, false, KEY, None), 0), 0, [""]), 0, true, KEY.dest);
    hide Reserve, Prepare, Locate, Dispatch;
    CycleFinish(d, 0, "");
  }

  lemma EmptyIdStart() returns (es: seq<Event>)
    ensures SearchesWithin(es, iset{""})
    ensures var a := Run(es); a.ops == [] && a.calls == [] && a.log == Init().log
    ensures ENTITY in Run(es).world.entities && Run(es).world.entities[ENTITY] == Snapshot("f", 1)
  {
    assert Run([]) == Init();
    es := RunOn([], EditEntity(ENTITY, Snapshot("f", 1)), iset{""});
  }

  lemma EmptyIdFirst() returns (es: seq<Event>)
    ensures SearchesWithin(es, iset{""})
    ensures var b := Run(es);
            && |b.ops| == |b.calls| == 1 && b.ops[0].state.Settled? && MapsTo(b, KEY)
            && b.log.mappings[ENTITY].record == "" && b.log.mappings[ENTITY].digest == ContentDigest("f")
            && b.log.writes == [Write(0, KEY, Snapshot("f", 1), Some(""))]
  {
    hide Run, Edit, Reserve, Prepare, Locate, Dispatch, Respond, Finish, SearchesWithin;
    var e0 := EmptyIdStart();
    var e1 := DispatchRun(e0, KEY, [""], iset{""});
    var e2 := RunOn(e1, RemoteAnswer(0, []), iset{""});
    es := RunOn(e2, FinishOp(0), iset{""});
    EmptyIdSettles(Run(e0), Run(es));
  }

  // The run in which a search answers with an empty id: both of its writes are creates.
  lemma EmptyIdCreatesTwice() returns (es: seq<Event>)
    ensures SearchesWithin(es, iset{""}) && !OneCreatePerKey(Run(es))
  {
    es := EmptyIdFirst();
    es := RunOn(es, EditEntity(ENTITY, Snapshot("g", 2)), iset{""});
    var c := Run(es);
    hide Run, Reserve, Prepare, Locate, Dispatch, SearchesWithin;
    CycleDispatch(c, KEY, []);
    es := DispatchRun(es, KEY, [], iset{""});
    var s := Run(es);
    assert s.log.writes == [Write(0, KEY, Snapshot("f", 1), Some("")), Write(1, KEY, Snapshot("g", 2), Some(""))];
    assert s.log.writes[0].key == s.log.writes[1].key;
  }

  /** Exactly when a create is dispatched at most once per key: base_sync_protocol.py:206 tests truthiness and
      :210 tests for None, so an empty id answered by a search defeats the rule, and nothing
      else does. */
  lemma OneCreateIffSearchesNonEmpty(ids: iset<string>)
    ensures (forall es | SearchesWithin(es, ids) :: OneCreatePerKey(Run(es))) <==> "" !in ids
  {
    if "" !in ids {
      forall es | SearchesWithin(es, ids) ensures OneCreatePerKey(Run(es)) {
        OneCreateWhenSearchesAreNonEmpty(es, ids);
      }
    } else {
      var es := EmptyIdCreatesTwice();
      assert SearchesWithin(es, ids);
    }
  }

  // ---- versions ---------------------------------------------------------------------------------

  // Entity versions never decrease during the run, deletions included.
  ghost predicate VersionsKept(es: seq<Event>) {
    forall k | 0 <= k < |es| && es[k].EditEntity? ::
      es[k].entity in Run(es[..k]).world.peak ==> Run(es[..k]).world.peak[es[k].entity] <= es[k].value.version
  }

  ghost predicate Peaked(peak: map<Entity, int>, e: Entity, v: int) {
    e in peak && v <= peak[e]
  }

  ghost predicate PeakCovers(s: State) {
    && (forall e | e in s.world.entities :: e in s.world.peak && s.world.peak[e] == s.world.entities[e].version)
    && (forall i | 0 <= i < |s.ops| && s.ops[i].snapshot.Some? ::
        Peaked(s.world.peak, s.ops[i].key.entity, s.ops[i].snapshot.value.version))
    && (forall n | 0 <= n < |s.log.writes| ::
        Peaked(s.world.peak, s.log.writes[n].key.entity, s.log.writes[n].snapshot.version))
    && (forall n | 0 <= n < |s.log.published| ::
        Peaked(s.world.peak, s.log.published[n].key.entity, s.log.published[n].mapping.version))
  }

  // Everything written or published under a key is no newer than an open snapshot of it.
  ghost predicate WrittenBelow(o: Operation, ws: seq<Write>) {
    Active(o) && o.snapshot.Some? ==>
      forall n | 0 <= n < |ws| && ws[n].key == o.key :: ws[n].snapshot.version <= o.snapshot.value.version
  }

  ghost predicate PublishedBelow(o: Operation, ps: seq<Publication>) {
    Active(o) && o.snapshot.Some? ==>
      forall n | 0 <= n < |ps| && ps[n].key == o.key :: ps[n].mapping.version <= o.snapshot.value.version
  }

  ghost predicate Below(s: State) {
    forall i | 0 <= i < |s.ops| :: WrittenBelow(s.ops[i], s.log.writes) && PublishedBelow(s.ops[i], s.log.published)
  }

  ghost predicate Sorted(s: State) {
    && (forall m, n | 0 <= m < n < |s.log.writes| && s.log.writes[m].key == s.log.writes[n].key ::
        s.log.writes[m].snapshot.version <= s.log.writes[n].snapshot.version)
    && (forall m, n | 0 <= m < n < |s.log.published| && s.log.published[m].key == s.log.published[n].key ::
        s.log.published[m].mapping.version <= s.log.published[n].mapping.version)
  }

  ghost predicate Versioned(s: State) {
    PeakCovers(s) && Below(s) && Sorted(s)
  }

  lemma SettleBelow(s: State, op: nat, settled: Operation, p: Publication)
    requires Exclusive(s.ops) && Versioned(s) && op < |s.ops| && Active(s.ops[op]) && s.ops[op].snapshot.Some?
    requires settled.state.Settled? && settled.key == s.ops[op].key && settled.snapshot == s.ops[op].snapshot
    requires p.key == settled.key && p.mapping.version == settled.snapshot.value.version
    ensures Versioned(s.(ops := s.ops[op := settled]))
    ensures Versioned(s.(ops := s.ops[op := settled], log := s.log.(published := s.log.published + [p])))
  {
    var ops := s.ops[op := settled];
    assert WrittenBelow(s.ops[op], s.log.writes) && PublishedBelow(s.ops[op], s.log.published);
    forall i | 0 <= i < |ops|
      ensures WrittenBelow(ops[i], s.log.writes) && PublishedBelow(ops[i], s.log.published)
          && PublishedBelow(ops[i], s.log.published + [p])
    {
      assert WrittenBelow(s.ops[i], s.log.writes) && PublishedBelow(s.ops[i], s.log.published);
    }
  }

  lemma VersionedFinish(s: State, op: nat)
    requires Inv(s) && Versioned(s)
    ensures Versioned(Finish(s, op))
  {
    if op < |s.ops| && FinishArgument(s.calls[op]).Some? {
      var (record, changed) := FinishArgument(s.calls[op]).value;
      if FinishOutcome(s, op, changed).Done? {
        FinishEffect(s, op, record, changed);
        var t := Finish(s, op);
        assert t.world.peak == s.world.peak && t.world.entities == s.world.entities;
        var o := s.ops[op];
        var m := Mapping(o.key.dest, record, o.snapshot.value.version, ContentDigest(o.snapshot.value.fields));
        SettleBelow(s, op, t.ops[op], Publication(op, o.key, m));
        hide Finish, Publish, Inv, Below, Sorted;
        if StillCurrent(s, o) {
          VersionedSame(s.(ops := t.ops, log := s.log.(published := t.log.published)), t);
        } else {
          VersionedSame(s.(ops := t.ops), t);
        }
      }
    }
  }

  lemma VersionedDispatch(s: State, op: nat, enabled: bool, dest: Destination)
    requires Inv(s) && Versioned(s)
    ensures Versioned(Dispatch(s, op, enabled, dest))
  {
    var t := Dispatch(s, op, enabled, dest);
    if op < |s.ops| && s.calls[op].Located? && DispatchOutcome(s, op, enabled, dest).Done? {
      hide Shape, OneIdentity, MappingsPublished, WritesOk;
      assert WrittenBelow(s.ops[op], s.log.writes) && PublishedBelow(s.ops[op], s.log.published);
      assert PeakCovers(t) && Sorted(t);
      forall i | 0 <= i < |t.ops| ensures WrittenBelow(t.ops[i], t.log.writes)
          && PublishedBelow(t.ops[i], t.log.published) {
        assert WrittenBelow(s.ops[i], s.log.writes) && PublishedBelow(s.ops[i], s.log.published);
      }
    }
  }

  lemma VersionedReserve(s: State, enabled: bool, held: bool, key: RemoteKey, ref: Option<AttemptRef>)
    requires Inv(s) && Versioned(s)
    ensures Versioned(Reserve(s, enabled, held, key, ref))
  {
    if ReserveOutcome(s, enabled, held, key, ref).Done? {
      RetireEffect(s.ops, key);
      var t := Reserve(s, enabled, held, key, ref);
      hide Retire, FindActive, Inv;
      forall i | 0 <= i < |t.ops| ensures WrittenBelow(t.ops[i], t.log.writes)
          && PublishedBelow(t.ops[i], t.log.published) {
        if i < |s.ops| { assert WrittenBelow(s.ops[i], s.log.writes) && PublishedBelow(s.ops[i], s.log.published); }
      }
      assert PeakCovers(t) by {
        forall i | 0 <= i < |t.ops| && t.ops[i].snapshot.Some? ensures Peaked(t.world.peak, t.ops[i].key.entity,
            t.ops[i].snapshot.value.version) {
          assert i < |s.ops| && t.ops[i].key == s.ops[i].key && t.ops[i].snapshot == s.ops[i].snapshot;
        }
      }
    }
  }

  lemma FreshSnapshotBelow(s: State, o: Operation)
    requires PeakCovers(s) && o.snapshot.Some? && o.key.entity in s.world.entities
        && o.snapshot.value == s.world.entities[o.key.entity]
    ensures WrittenBelow(o, s.log.writes) && PublishedBelow(o, s.log.published)
    ensures Peaked(s.world.peak, o.key.entity, o.snapshot.value.version)
  {
    forall n | 0 <= n < |s.log.writes| && s.log.writes[n].key == o.key
      ensures s.log.writes[n].snapshot.version <= o.snapshot.value.version
    { assert Peaked(s.world.peak, s.log.writes[n].key.entity, s.log.writes[n].snapshot.version); }
    forall n | 0 <= n < |s.log.published| && s.log.published[n].key == o.key
      ensures s.log.published[n].mapping.version <= o.snapshot.value.version
    { assert Peaked(s.world.peak, s.log.published[n].key.entity, s.log.published[n].mapping.version); }
  }

  lemma VersionedPrepare(s: State, op: nat)
    requires |s.calls| == |s.ops| && Versioned(s)
    ensures Versioned(Prepare(s, op))
  {
    if op < |s.ops| && s.calls[op].Entered? && PrepareOutcome(s, op).Done? {
      var t := Prepare(s, op);
      hide KnownRecord, Unchanged, PrepareOutcome;
      FreshSnapshotBelow(s, t.ops[op]);
      assert forall i | 0 <= i < |s.ops| && i != op :: t.ops[i] == s.ops[i];
      hide Prepare;
      forall i | 0 <= i < |t.ops| ensures WrittenBelow(t.ops[i], t.log.writes)
          && PublishedBelow(t.ops[i], t.log.published) {
        if i != op { assert WrittenBelow(s.ops[i], s.log.writes) && PublishedBelow(s.ops[i], s.log.published); }
      }
      assert PeakCovers(t);
    }
  }

  lemma VersionedHandle(s: State, op: nat)
    requires Versioned(s)
    ensures Versioned(Handle(s, op))
  {
    var t := Handle(s, op);
    forall i | 0 <= i < |t.ops| ensures WrittenBelow(t.ops[i], t.log.writes)
        && PublishedBelow(t.ops[i], t.log.published) {
      assert WrittenBelow(s.ops[i], s.log.writes) && PublishedBelow(s.ops[i], s.log.published);
    }
  }

  lemma VersionedEdit(s: State, e: Entity, v: Snapshot)
    requires Versioned(s) && (e in s.world.peak ==> s.world.peak[e] <= v.version)
    ensures Versioned(Edit(s, e, v))
  {
    var t := Edit(s, e, v);
    forall x, n | Peaked(s.world.peak, x, n) ensures Peaked(t.world.peak, x, n) {}
    assert PeakCovers(t);
  }

  // Other job and clock events leave everything the versions depend on alone.
  lemma OutsideVersions(s: State, e: Event)
    requires !ProtocolEvent(e) && !e.EditEntity?
    ensures Apply(s, e).world.peak == s.world.peak && (forall x | x in Apply(s, e).world.entities ::
        x in s.world.entities && Apply(s, e).world.entities[x] == s.world.entities[x])
  {}

  lemma VersionedSame(s: State, t: State)
    requires Versioned(s)
    requires t.ops == s.ops && t.log.writes == s.log.writes && t.log.published == s.log.published
        && t.world.peak == s.world.peak
    requires forall x | x in t.world.entities :: x in s.world.entities && t.world.entities[x] == s.world.entities[x]
    ensures Versioned(t)
  {}

  lemma VersionedStep(s: State, e: Event)
    requires Inv(s) && Versioned(s)
    requires e.EditEntity? && e.entity in s.world.peak ==> s.world.peak[e.entity] <= e.value.version
    ensures Versioned(Apply(s, e))
  {
    assert |s.calls| == |s.ops|;
    hide Inv, Versioned, Reserve, Prepare, Dispatch, Finish, Handle, Edit;
    match e
    case EditEntity(x, v) => VersionedEdit(s, x, v);
    case ReserveOp(enabled, held, k, r) => VersionedReserve(s, enabled, held, k, r);
    case PrepareOp(op) => VersionedPrepare(s, op);
    case DispatchOp(op, enabled, d) => VersionedDispatch(s, op, enabled, d);
    case FinishOp(op) => VersionedFinish(s, op);
    case HandleException(op) => VersionedHandle(s, op);
    case _ =>
      if CallEvent(e) {
        CallEventEffect(s, e);
      } else {
        OutsideProtocol(s, e);
        OutsideVersions(s, e);
      }
      hide Apply;
      VersionedSame(s, Apply(s, e));
  }

  lemma {:induction false} VersionedRun(es: seq<Event>)
    requires VersionsKept(es)
    ensures Versioned(Run(es))
  {
    if es != [] {
      var front := es[..|es| - 1];
      assert VersionsKept(front) by {
        forall k | 0 <= k < |front| ensures front[..k] == es[..k] {}
      }
      assert es[..|es| - 1] == front;
      VersionedRun(front);
      RunKeeps(front);
      VersionedStep(Run(front), es[|es| - 1]);
    }
  }

  /** When entity versions never decrease, neither do the versions dispatched to one key. */
  lemma DispatchedVersionsNeverDecrease(es: seq<Event>, m: nat, n: nat)
    requires VersionsKept(es)
    requires m < n < |Run(es).log.writes| && Run(es).log.writes[m].key == Run(es).log.writes[n].key
    ensures Run(es).log.writes[m].snapshot.version <= Run(es).log.writes[n].snapshot.version
  {
    VersionedRun(es);
  }

  /** Each dispatched body is the entity's snapshot in the very step that dispatches it. */
  lemma DispatchedBodyIsCurrent(es: seq<Event>, e: Event)
    requires Run(es + [e]).log.writes != Run(es).log.writes
    ensures var s := Run(es); var t := Run(es + [e]);
            && |t.log.writes| == |s.log.writes| + 1
            && var w := t.log.writes[|s.log.writes|];
            && w.key.entity in s.world.entities && w.snapshot == s.world.entities[w.key.entity]
            && e.DispatchOp? && e.enabled && e.dest == w.key.dest
  {
    RunSnoc(es, e);
    hide Run;
    WritesExtend(Run(es), e);
    hide Apply;
  }

  lemma PublishedExtends(es: seq<Event>, more: seq<Event>)
    ensures Run(es).log.published <= Run(es + more).log.published
    decreases |more|
  {
    if more == [] {
      assert es + more == es;
    } else {
      var front, e := more[..|more| - 1], more[|more| - 1];
      PublishedExtends(es, front);
      assert es + more == (es + front) + [e];
      RunSnoc(es + front, e);
      var s := Run(es + front);
      if !ProtocolEvent(e) { OutsideProtocol(s, e); }
    }
  }

  lemma MappingsOrdered(s: State, t: State, key: RemoteKey)
    requires MappingsPublished(s) && MappingsPublished(t) && Sorted(t) && s.log.published <= t.log.published
    requires MapsTo(s, key) && MapsTo(t, key)
    ensures s.log.mappings[key.entity].version <= t.log.mappings[key.entity].version
  {
    var i, j := LastPublication(s.log.published, key.entity).value, LastPublication(t.log.published, key.entity).value;
    assert PublicationOk(s.ops, s.log.published[i]) && PublicationOk(t.ops, t.log.published[j]);
    assert t.log.published[i] == s.log.published[i];
  }

  /** The version published in the mapping of one key never goes backwards, even when the
      mapping pointed elsewhere in between. */
  lemma MappingVersionNeverDecreases(es: seq<Event>, more: seq<Event>, key: RemoteKey)
    requires VersionsKept(es + more)
    requires MapsTo(Run(es), key) && MapsTo(Run(es + more), key)
    ensures Run(es).log.mappings[key.entity].version <= Run(es + more).log.mappings[key.entity].version
  {
    hide Run;
    RunKeeps(es);
    RunKeeps(es + more);
    VersionedRun(es + more);
    PublishedExtends(es, more);
    hide VersionsKept, Shape, Exclusive, OneIdentity, WritesOk, MappingsPublished, PeakCovers, Below, Sorted;
    MappingsOrdered(Run(es), Run(es + more), key);
  }

  // ---- jobs ----------------------------------------------------------------------------------------

  /** A job becomes succeeded only in the step that settles its own operation and publishes a
      mapping whose digest is the one its input digest was computed from. */
  lemma SuccessPublishesItsInput(es: seq<Event>, e: Event, job: string)
    requires job in Run(es + [e]).work.jobs && Run(es + [e]).work.jobs[job].state.Succeeded?
    requires job in Run(es).work.jobs ==> !Run(es).work.jobs[job].state.Succeeded?
    ensures var s := Run(es); var t := Run(es + [e]);
            && e.FinishOp? && e.op < |s.ops| == |t.ops|
            && !s.ops[e.op].state.Settled? && t.ops[e.op].state.Settled?
            && s.ops[e.op].ref.Some? && s.ops[e.op].ref.value.job == job && Current(s, s.ops[e.op].ref.value)
            && var key := s.ops[e.op].key;
            && MapsTo(t, key)
            && t.ops[e.op].record == Some(t.log.mappings[key.entity].record)
            && t.work.jobs[job].input == InputDigest(key.entity, t.log.mappings[key.entity].digest, key.dest)
            && t.work.jobs[job].output == Some(t.log.mappings[key.entity].digest)
  {
    RunSnoc(es, e);
    RunKeeps(es);
    var s := Run(es);
    JobsStep(s, e, job);
    assert RowOk(s.ops[e.op]);
  }

  // Only a publishing finish writes 'succeeded'.
  lemma JobsStep(s: State, e: Event, job: string)
    requires job in Apply(s, e).work.jobs && Apply(s, e).work.jobs[job].state.Succeeded?
    requires job in s.work.jobs ==> !s.work.jobs[job].state.Succeeded?
    ensures e.FinishOp? && e.op < |s.ops| && e.op < |s.calls| && FinishArgument(s.calls[e.op]).Some?
    ensures FinishOutcome(s, e.op, FinishArgument(s.calls[e.op]).value.1).Done?
    ensures s.ops[e.op].ref.Some? && s.ops[e.op].ref.value.job == job && Current(s, s.ops[e.op].ref.value)
  {
    if !ProtocolEvent(e) {
      OtherJobEvents(s, e, job);
    } else if !e.FinishOp? {
      ProtocolKeepsJobs(s, e);
      hide Apply;
    }
  }

  lemma OtherJobEvents(s: State, e: Event, job: string)
    requires !ProtocolEvent(e) && job in Apply(s, e).work.jobs && Apply(s, e).work.jobs[job].state.Succeeded?
    ensures job in s.work.jobs && s.work.jobs[job].state.Succeeded?
  {
    hide FindActive, Uncertain, Current, EndAttempt;
  }

  lemma ProtocolKeepsJobs(s: State, e: Event)
    requires ProtocolEvent(e) && !e.FinishOp?
    ensures Apply(s, e).work.jobs == s.work.jobs
  {
    if CallEvent(e) {
      CallEventEffect(s, e);
      hide Apply;
    } else {
      hide Retire, KnownRecord, Unchanged, ReserveOutcome, PrepareOutcome, DispatchOutcome;
      match e
      case ReserveOp(enabled, held, k, r) =>
      case PrepareOp(op) =>
      case DispatchOp(op, enabled, d) =>
      case HandleException(op) =>
    }
  }

  /** A finish by an attempt that lost its lease settles its operation and leaves every job row
      and every mapping as they were. */
  lemma StaleFinishPublishesNothing(es: seq<Event>, op: nat)
    requires op < |Run(es).ops| && Run(es).ops[op].ref.Some? && !Current(Run(es), Run(es).ops[op].ref.value)
    ensures var s := Run(es); var t := Run(es + [FinishOp(op)]);
            && t.work.jobs == s.work.jobs && t.log.mappings == s.log.mappings && t.log.published == s.log.published
                && t.work.attempts == s.work.attempts
            && |t.ops| == |s.ops| == |s.calls| && (forall i | 0 <= i < |s.ops| && i != op :: t.ops[i] == s.ops[i])
            && (s.ops[op].state.Dispatched? && s.calls[op].Answered? ==> t.ops[op].state.Settled?)
  {
    RunSnoc(es, FinishOp(op));
    RunKeeps(es);
    var s := Run(es);
    assert RowOk(s.ops[op]) && CallFits(s.ops[op], s.calls[op]);
  }
}
