/**
 What every interleaving of the Base mirror protocol keeps.

 `Inv` is inductive: it holds of the empty database and each event preserves it. The
 theorems at the end of the module read the guarantees of whole runs off `Inv`.
 */
module BaseSyncInvariants {
  import opened Options
  import opened BaseSync

  // ---- the invariant ---------------------------------------------------------------

  // Past `_prepare`: the row holds a snapshot and a record identity.
  predicate Bound(o: Operation) {
    o.state.Prepared? || o.state.Dispatched? || o.state.Unknown? || o.state.Settled?
  }

  ghost predicate RowOk(o: Operation) {
    && (Bound(o) ==> o.snapshot.Some?)
    && (o.state.Settled? ==> o.record.Some?)
    && (Bound(o) && o.ref.Some? ==>
        o.ref.value.input == InputDigest(o.key.entity, ContentDigest(o.snapshot.value.fields), o.key.dest))
  }

  // A row and the local variables of the call that owns it.
  ghost predicate CallFits(o: Operation, c: Call) {
    match c
    case Entered => o.state.Reserved? || o.state.Cancelled?
    case Read(same, record) =>
      && (o.state.Prepared? || o.state.Cancelled?)
      && (o.state.Prepared? ==> o.record == record)
      && (same ==> record.Some?)
    case Located(record) =>
      && (o.state.Prepared? || o.state.Cancelled?)
      && (o.state.Prepared? && o.record.Some? ==> record == o.record)
    case Sent(record) => o.state.Dispatched? && o.record == record
    case Answered(id) => o.state.Dispatched? && (o.record.Some? ==> o.record.value == id)
    case Raised => !o.state.Unknown? && !o.state.Settled?
    case Returned => o.state.Unknown? || o.state.Settled? || o.state.Cancelled?
  }

  ghost predicate Shape(s: State) {
    && |s.calls| == |s.ops|
    && forall i | 0 <= i < |s.ops| :: RowOk(s.ops[i]) && CallFits(s.ops[i], s.calls[i])
  }

  ghost predicate Exclusive(ops: seq<Operation>) {
    forall i, j | 0 <= i < |ops| && 0 <= j < |ops| && i != j ::
      Active(ops[i]) && Active(ops[j]) ==> ops[i].key != ops[j].key
  }

  // Everything bound to a key that has a settled operation carries the settled record.
  ghost predicate OneIdentity(ops: seq<Operation>) {
    forall i, j | 0 <= i < |ops| && 0 <= j < |ops| ::
      Bound(ops[i]) && ops[j].state.Settled? && ops[i].key == ops[j].key ==> ops[i].record == ops[j].record
  }

  // The index of the last publication about an entity.
  ghost function LastPublication(ps: seq<Publication>, e: Entity): (r: Option<nat>)
    ensures r.Some? ==> r.value < |ps| && ps[r.value].key.entity == e
    ensures forall i | 0 <= i < |ps| && ps[i].key.entity == e :: r.Some? && i <= r.value
  {
    if ps == [] then None
    else
      var n := |ps| - 1;
      if ps[n].key.entity == e then Some(n) else LastPublication(ps[..n], e)
  }

  ghost predicate PublicationOk(ops: seq<Operation>, p: Publication) {
    && p.op < |ops| && ops[p.op].state.Settled? && ops[p.op].key == p.key
    && ops[p.op].record == Some(p.mapping.record) && ops[p.op].snapshot.Some?
    && p.mapping.dest == p.key.dest
    && p.mapping.version == ops[p.op].snapshot.value.version
    && p.mapping.digest == ContentDigest(ops[p.op].snapshot.value.fields)
  }

  ghost predicate MappingsPublished(s: State) {
    && (forall n | 0 <= n < |s.log.published| :: PublicationOk(s.ops, s.log.published[n]))
    && (forall e | e in s.log.mappings ::
          LastPublication(s.log.published, e).Some?
              && s.log.published[LastPublication(s.log.published, e).value].mapping == s.log.mappings[e])
  }

  ghost predicate WriteOk(ops: seq<Operation>, w: Write) {
    && w.op < |ops| && ops[w.op].key == w.key && ops[w.op].snapshot == Some(w.snapshot)
    && (ops[w.op].state.Dispatched? || ops[w.op].state.Unknown? || ops[w.op].state.Settled?)
  }

  // A later write to the same key finds the earlier one settled and addresses its record.
  ghost predicate WritesOk(s: State) {
    && (forall n | 0 <= n < |s.log.writes| :: WriteOk(s.ops, s.log.writes[n]))
    && (forall m, n | 0 <= m < n < |s.log.writes| && s.log.writes[m].key == s.log.writes[n].key ::
          s.ops[s.log.writes[m].op].state.Settled? && s.log.writes[n].record == s.ops[s.log.writes[m].op].record)
  }

  ghost predicate Inv(s: State) {
    Shape(s) && Exclusive(s.ops) && OneIdentity(s.ops) && MappingsPublished(s) && WritesOk(s)
  }

  // ---- preservation, transaction by transaction ----------------------------------------

  // Reserving cancels at most one row, which was never dispatched, and frees the key.
  lemma RetireEffect(ops: seq<Operation>, key: RemoteKey)
    requires Exclusive(ops)
    requires FindActive(ops, key).Some? ==>
               var o := ops[FindActive(ops, key).value]; o.state.Reserved? || o.state.Prepared?
    ensures var r := Retire(ops, key);
            && (forall i | 0 <= i < |ops| ::
                  r[i] == ops[i] || (r[i] == ops[i].(state := Cancelled)
                      && (ops[i].state.Reserved? || ops[i].state.Prepared?)))
            && (forall i | 0 <= i < |ops| && ops[i].key == key :: !Active(r[i]))
  {}

  lemma ReserveRows(ops: seq<Operation>, next: seq<Operation>, row: Operation)
    requires Exclusive(ops) && OneIdentity(ops) && |next| == |ops|
    requires forall i | 0 <= i < |ops| ::
               next[i] == ops[i] || (next[i] == ops[i].(state := Cancelled)
                   && (ops[i].state.Reserved? || ops[i].state.Prepared?))
    requires forall i | 0 <= i < |ops| && ops[i].key == row.key :: !Active(next[i])
    requires row.state.Reserved?
    ensures Exclusive(next + [row]) && OneIdentity(next + [row])
  {}

  lemma ReserveHistory(s: State, t: State)
    requires MappingsPublished(s) && WritesOk(s) && |s.ops| <= |t.ops|
    requires forall i | 0 <= i < |s.ops| ::
               t.ops[i] == s.ops[i] || s.ops[i].state.Reserved? || s.ops[i].state.Prepared?
    requires t.log.published == s.log.published && t.log.mappings == s.log.mappings && t.log.writes == s.log.writes
    ensures MappingsPublished(t) && WritesOk(t)
  {
    forall n | 0 <= n < |s.log.published| ensures PublicationOk(t.ops, t.log.published[n]) {
      assert PublicationOk(s.ops, s.log.published[n]);
    }
    forall n | 0 <= n < |s.log.writes| ensures WriteOk(t.ops, t.log.writes[n]) {
      assert WriteOk(s.ops, s.log.writes[n]);
    }
  }

  lemma ReserveKeeps(s: State, enabled: bool, held: bool, key: RemoteKey, ref: Option<AttemptRef>)
    requires Inv(s)
    ensures Inv(Reserve(s, enabled, held, key, ref))
  {
    if ReserveOutcome(s, enabled, held, key, ref).Done? {
      var t := Reserve(s, enabled, held, key, ref);
      RetireEffect(s.ops, key);
      ReserveRows(s.ops, Retire(s.ops, key), t.ops[|s.ops|]);
      ReserveHistory(s, t);
      hide Exclusive, OneIdentity, MappingsPublished, WritesOk, Retire, FindActive;
      assert Shape(t) by {
        forall i | 0 <= i < |s.ops| ensures RowOk(t.ops[i]) && CallFits(t.ops[i], t.calls[i]) {
          assert RowOk(s.ops[i]) && CallFits(s.ops[i], s.calls[i]);
        }
      }
    }
  }

  // Only the local variables of one call change.
  lemma CallChangeKeeps(s: State, op: nat, c: Call)
    requires Inv(s) && op < |s.ops| && CallFits(s.ops[op], c)
    ensures Inv(s.(calls := s.calls[op := c]))
  {
    var t := s.(calls := s.calls[op := c]);
    assert Shape(t);
    assert MappingsPublished(t) && WritesOk(t);
  }

  lemma RaiseKeeps(s: State, op: nat)
    requires Inv(s) && op < |s.ops| && !s.calls[op].Returned?
    ensures Inv(Raise(s, op))
  {
    assert CallFits(s.ops[op], s.calls[op]);
    CallChangeKeeps(s, op, Raised);
  }

  lemma InterruptKeeps(s: State, op: nat)
    requires Inv(s)
    ensures Inv(Interrupt(s, op))
  {
    if op < |s.ops| && !s.calls[op].Returned? { RaiseKeeps(s, op); }
  }

  lemma LocateKeeps(s: State, op: nat, found: seq<string>)
    requires Inv(s)
    ensures Inv(Locate(s, op, found))
  {
    if op < |s.calls| && s.calls[op].Read? && !s.calls[op].same {
      var record := s.calls[op].record;
      assert CallFits(s.ops[op], s.calls[op]);
      if record.Some? { CallChangeKeeps(s, op, Located(record)); }
      else if |found| > 1 { RaiseKeeps(s, op); }
      else { CallChangeKeeps(s, op, Located(if found == [] then None else Some(found[0]))); }
    }
  }

  lemma RespondKeeps(s: State, op: nat, ids: seq<string>)
    requires Inv(s)
    ensures Inv(Respond(s, op, ids))
  {
    if op < |s.calls| && s.calls[op].Sent? {
      var record := s.calls[op].record;
      assert CallFits(s.ops[op], s.calls[op]);
      if record.Some? { CallChangeKeeps(s, op, Answered(record.value)); }
      else if |ids| == 1 && ids[0] != "" { CallChangeKeeps(s, op, Answered(ids[0])); }
      else { RaiseKeeps(s, op); }
    }
  }

  // The record `_prepare` reads is the settled one whenever the key has a settled operation.
  lemma KnownRecordIsSettled(s: State, key: RemoteKey, j: nat)
    requires Inv(s) && j < |s.ops| && s.ops[j].state.Settled? && s.ops[j].key == key
    ensures KnownRecord(s, key) == s.ops[j].record
  {
    assert RowOk(s.ops[j]);
    if MapsTo(s, key) {
      assert PublicationOk(s.ops, s.log.published[LastPublication(s.log.published, key.entity).value]);
    }
  }

  lemma PrepareKeeps(s: State, op: nat)
    requires Inv(s)
    ensures Inv(Prepare(s, op))
  {
    if op < |s.ops| && s.calls[op].Entered? {
      if !PrepareOutcome(s, op).Done? {
        RaiseKeeps(s, op);
      } else {
        var t := Prepare(s, op);
        assert forall i | 0 <= i < |s.ops| && i != op :: t.ops[i] == s.ops[i] && t.calls[i] == s.calls[i];
        assert Shape(t) by { assert RowOk(t.ops[op]) && CallFits(t.ops[op], t.calls[op]); }
        assert OneIdentity(t.ops) by {
          forall j | 0 <= j < |s.ops| && s.ops[j].state.Settled? && s.ops[j].key == s.ops[op].key
            ensures t.ops[op].record == s.ops[j].record
          { KnownRecordIsSettled(s, s.ops[op].key, j); }
        }
        RowsBehindHistory(s, t, op);
      }
    }
  }

  // Histories only mention rows that were dispatched, so a change to another row is invisible to them.
  lemma RowsBehindHistory(s: State, t: State, op: nat)
    requires MappingsPublished(s) && WritesOk(s) && op < |s.ops| == |t.ops|
    requires forall i | 0 <= i < |s.ops| && i != op :: t.ops[i] == s.ops[i]
    requires s.ops[op].state.Reserved? || s.ops[op].state.Prepared? || (s.ops[op].state.Dispatched?
        && t.ops[op] == s.ops[op].(state := Unknown))
    requires t.log.published == s.log.published && t.log.mappings == s.log.mappings && t.log.writes == s.log.writes
    ensures MappingsPublished(t) && WritesOk(t)
  {
    forall n | 0 <= n < |s.log.published| ensures PublicationOk(t.ops, t.log.published[n]) {
      assert PublicationOk(s.ops, s.log.published[n]);
    }
    forall n | 0 <= n < |s.log.writes| ensures WriteOk(t.ops, t.log.writes[n]) {
      assert WriteOk(s.ops, s.log.writes[n]);
    }
  }

  lemma DispatchRows(ops: seq<Operation>, op: nat, record: Option<string>)
    requires Exclusive(ops) && OneIdentity(ops) && op < |ops| && ops[op].state.Prepared?
    requires forall i | 0 <= i < |ops| :: RowOk(ops[i])
    requires ops[op].record.Some? ==> record == ops[op].record
    ensures var next := ops[op := ops[op].(state := Dispatched, record := record)];
            Exclusive(next) && OneIdentity(next)
  {}

  // The key of a prepared operation holds no write but settled ones, and those bind its record.
  lemma DispatchHistory(s: State, op: nat, record: Option<string>)
    requires Inv(s) && op < |s.ops| && s.ops[op].state.Prepared?
    requires s.ops[op].record.Some? ==> record == s.ops[op].record
    ensures forall m | 0 <= m < |s.log.writes| && s.log.writes[m].key == s.ops[op].key ::
              s.ops[s.log.writes[m].op].state.Settled? && record == s.ops[s.log.writes[m].op].record
  {
    forall m | 0 <= m < |s.log.writes| && s.log.writes[m].key == s.ops[op].key
      ensures s.ops[s.log.writes[m].op].state.Settled? && record == s.ops[s.log.writes[m].op].record
    {
      assert WriteOk(s.ops, s.log.writes[m]) && RowOk(s.ops[s.log.writes[m].op]);
    }
  }

  lemma WritesGrow(s: State, t: State, w: Write)
    requires WritesOk(t.(log := t.log.(writes := s.log.writes))) && t.log.writes == s.log.writes + [w]
        && WriteOk(t.ops, w)
    requires forall m | 0 <= m < |s.log.writes| && s.log.writes[m].key == w.key ::
               t.ops[s.log.writes[m].op].state.Settled? && w.record == t.ops[s.log.writes[m].op].record
    ensures WritesOk(t)
  {
    forall n | 0 <= n < |s.log.writes| ensures WriteOk(t.ops, t.log.writes[n]) {
      assert WriteOk(t.ops, s.log.writes[n]);
    }
  }

  lemma DispatchKeeps(s: State, op: nat, enabled: bool, dest: Destination)
    requires Inv(s)
    ensures Inv(Dispatch(s, op, enabled, dest))
  {
    if op < |s.ops| && s.calls[op].Located? {
      assert CallFits(s.ops[op], s.calls[op]);
      if !DispatchOutcome(s, op, enabled, dest).Done? {
        RaiseKeeps(s, op);
      } else {
        var t := Dispatch(s, op, enabled, dest);
        var record := s.calls[op].record;
        DispatchRows(s.ops, op, record);
        DispatchHistory(s, op, record);
        RowsBehindHistory(s, t.(log := t.log.(writes := s.log.writes)), op);
        WritesGrow(s, t, t.log.writes[|s.log.writes|]);
        hide Exclusive, OneIdentity, MappingsPublished, WritesOk;
        assert Shape(t);
      }
    }
  }

  lemma SettleKeepsHistory(s: State, t: State, op: nat)
    requires Inv(s) && op < |s.ops| == |t.ops|
    requires s.ops[op].state.Prepared? || s.ops[op].state.Dispatched?
    requires t.ops[op].state.Settled? && t.ops[op].key == s.ops[op].key && t.ops[op].snapshot == s.ops[op].snapshot
    requires forall i | 0 <= i < |s.ops| && i != op :: t.ops[i] == s.ops[i]
    requires t.log.writes == s.log.writes
    ensures WritesOk(t)
    ensures forall n | 0 <= n < |s.log.published| :: PublicationOk(t.ops, s.log.published[n])
  {
    forall n | 0 <= n < |s.log.writes| ensures WriteOk(t.ops, t.log.writes[n]) {
      assert WriteOk(s.ops, s.log.writes[n]);
    }
    forall n | 0 <= n < |s.log.published| ensures PublicationOk(t.ops, s.log.published[n]) {
      assert PublicationOk(s.ops, s.log.published[n]);
    }
  }

  lemma SettleKeepsRows(s: State, ops: seq<Operation>, calls: seq<Call>, op: nat, record: string)
    requires Inv(s) && op < |s.ops|
    requires s.ops[op].state.Prepared? || s.ops[op].state.Dispatched?
    requires s.ops[op].record.Some? ==> s.ops[op].record == Some(record)
    requires ops == s.ops[op := s.ops[op].(state := Settled, record := Some(record))]
    requires calls == s.calls[op := Returned]
    ensures Shape(s.(ops := ops, calls := calls)) && Exclusive(ops) && OneIdentity(ops)
  {
    assert RowOk(s.ops[op]);
    assert RowOk(ops[op]) && CallFits(ops[op], calls[op]);
  }

  lemma MappingAfterPublication(s: State, t: State, p: Publication)
    requires MappingsPublished(s)
    requires t.log.published == s.log.published + [p] && t.log.mappings == s.log.mappings[p.key.entity := p.mapping]
    requires forall n | 0 <= n < |s.log.published| :: PublicationOk(t.ops, s.log.published[n])
    requires PublicationOk(t.ops, p)
    ensures MappingsPublished(t)
  {
    assert t.log.published[..|s.log.published|] == s.log.published;
    forall n | 0 <= n < |t.log.published| ensures PublicationOk(t.ops, t.log.published[n]) {}
  }

  // The two ways `_finish` commits: publishing, or recording late evidence only.
  lemma FinishEffect(s: State, op: nat, record: string, changed: bool)
    requires op < |s.ops| == |s.calls| && FinishArgument(s.calls[op]) == Some((record, changed))
    requires FinishOutcome(s, op, changed).Done?
    ensures var t := Finish(s, op); var o := s.ops[op];
            && t.ops == s.ops[op := o.(state := Settled, record := Some(record))]
            && t.calls == s.calls[op := Returned] && t.log.writes == s.log.writes
            && (if StillCurrent(s, o) then
                  var m := Mapping(o.key.dest, record, o.snapshot.value.version,
                      ContentDigest(o.snapshot.value.fields));
                  t.log.published == s.log.published + [Publication(op, o.key, m)]
                      && t.log.mappings == s.log.mappings[o.key.entity := m]
                else t.log.published == s.log.published && t.log.mappings == s.log.mappings
                     && t.work.jobs == s.work.jobs)
  {}

  lemma FinishKeeps(s: State, op: nat)
    requires Inv(s)
    ensures Inv(Finish(s, op))
  {
    if op < |s.ops| && FinishArgument(s.calls[op]).Some? {
      var (record, changed) := FinishArgument(s.calls[op]).value;
      assert CallFits(s.ops[op], s.calls[op]);
      if !FinishOutcome(s, op, changed).Done? {
        RaiseKeeps(s, op);
      } else {
        var t := Finish(s, op);
        FinishEffect(s, op, record, changed);
        hide Finish, Publish;
        SettleKeepsRows(s, t.ops, t.calls, op, record);
        SettleKeepsHistory(s, t, op);
        hide Exclusive, OneIdentity, WritesOk;
        if StillCurrent(s, s.ops[op]) {
          MappingAfterPublication(s, t, t.log.published[|s.log.published|]);
        } else {
          assert MappingsPublished(t);
        }
        assert Shape(t);
      }
    }
  }

  lemma HandleKeeps(s: State, op: nat)
    requires Inv(s)
    ensures Inv(Handle(s, op))
  {
    if op < |s.ops| && s.calls[op].Raised? {
      var t := Handle(s, op);
      assert RowOk(s.ops[op]) && CallFits(s.ops[op], s.calls[op]);
      assert forall i | 0 <= i < |s.ops| && i != op :: t.ops[i] == s.ops[i] && t.calls[i] == s.calls[i];
      if s.ops[op].state.Cancelled? {
        CallChangeKeeps(s, op, Returned);
      } else {
        RowsBehindHistory(s, t, op);
        assert Shape(t) by { assert RowOk(t.ops[op]) && CallFits(t.ops[op], t.calls[op]); }
      }
    }
  }

  predicate ProtocolEvent(e: Event) {
    e.ReserveOp? || e.PrepareOp? || e.SearchRemote? || e.DispatchOp? || e.RemoteAnswer? ||
    e.FinishOp? || e.ExceptionIn? || e.HandleException?
  }

  // Jobs, clock and entities leave the protocol tables alone.
  lemma OutsideProtocol(s: State, e: Event)
    requires !ProtocolEvent(e)
    ensures var t := Apply(s, e);
            t.ops == s.ops && t.calls == s.calls && t.log.mappings == s.log.mappings
                && t.log.published == s.log.published && t.log.writes == s.log.writes
  {}

  predicate CallEvent(e: Event) {
    e.SearchRemote? || e.RemoteAnswer? || e.ExceptionIn?
  }

  // Between transactions a worker only changes its own local variables.
  lemma CallEventEffect(s: State, e: Event)
    requires CallEvent(e)
    ensures Apply(s, e) == s.(calls := Apply(s, e).calls) && |Apply(s, e).calls| == |s.calls|
    ensures forall i | 0 <= i < |s.calls| && i != e.op :: Apply(s, e).calls[i] == s.calls[i]
  {}

  lemma SameTables(s: State, t: State)
    requires Inv(s)
    requires t.ops == s.ops && t.calls == s.calls && t.log.mappings == s.log.mappings
        && t.log.published == s.log.published && t.log.writes == s.log.writes
    ensures Inv(t)
  {}

  lemma StepKeeps(s: State, e: Event)
    requires Inv(s)
    ensures Inv(Apply(s, e))
  {
    hide Inv;
    if !ProtocolEvent(e) {
      OutsideProtocol(s, e);
      SameTables(s, Apply(s, e));
    } else {
      match e
      case ReserveOp(enabled, held, k, r) => ReserveKeeps(s, enabled, held, k, r);
      case PrepareOp(op) => PrepareKeeps(s, op);
      case SearchRemote(op, found) => LocateKeeps(s, op, found);
      case DispatchOp(op, enabled, d) => DispatchKeeps(s, op, enabled, d);
      case RemoteAnswer(op, ids) => RespondKeeps(s, op, ids);
      case FinishOp(op) => FinishKeeps(s, op);
      case ExceptionIn(op) => InterruptKeeps(s, op);
      case HandleException(op) => HandleKeeps(s, op);
    }
  }

  lemma {:induction false} RunKeeps(es: seq<Event>)
    ensures Inv(Run(es))
  {
    if es != [] {
      RunKeeps(es[..|es| - 1]);
      StepKeeps(Run(es[..|es| - 1]), es[|es| - 1]);
    }
  }
}
