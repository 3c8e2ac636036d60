/**
 The remote queue as the source runs it. Each method is proved against the transactions of the
 model; `RunOne` is one uninterrupted pass of the consumer, whose crashes the model covers by
 cutting the same sequence of events short.
 */
module RemoteStore {
  import opened Options
  import opened Traces
  import opened RemoteQueue

  /** Transactions applied to a reachable state lead to a reachable state. */
  lemma {:induction false} TraceIsRun(es: seq<Event>, more: seq<Event>)
    ensures Fold(Apply, Run(es), more) == Run(es + more)
    decreases |more|
  {
    if more == [] {
      assert es + more == es;
    } else {
      var front, e := more[..|more| - 1], more[|more| - 1];
      TraceIsRun(es, front);
      assert es + more == (es + front) + [e];
      RunSnoc(es + front, e);
    }
  }

  // What the outside world does during one pass.
  datatype World = World(
    live: bool, matched: bool, faultBefore: bool, liveAtCheck: bool, // the heartbeat before the send
    faultAfter: bool, liveAtRecord: bool, code: int, wellFormed: bool, at: int)

  datatype Result = Stopped | Busy | Idle | Refused | Ran(request: string, state: ActionState)

  // The outcome of a command that was sent.
  function Received(w: World): ActionState {
    if w.faultAfter || !w.liveAtRecord || !w.wellFormed || !ValidCode(w.code) then Unknown else Classify(w.code)
  }

  // The result of a run that was started.
  function Outcome(w: World): ActionState {
    if w.faultBefore then Unknown
    else if !w.matched then Cancelled
    else if !w.liveAtCheck then Unknown
    else Received(w)
  }

  // What follows the send, and what follows the committed start, event by event.
  function Recording(r: string, w: World): Event {
    if w.faultAfter then FaultRun(r) else RecordResult(r, w.liveAtRecord, w.code, w.wellFormed, w.at)
  }

  function Steps(r: string, w: World): seq<Event> {
    if w.faultBefore then [FaultRun(r)]
    else if !w.matched then [AbortRun(r)]
    else if !w.liveAtCheck then [CheckRun(r, false)]
    else [CheckRun(r, true), RunCommand(r), Recording(r, w)]
  }

  predicate Sends(w: World) { !w.faultBefore && w.matched && w.liveAtCheck }

  class Consumer {
    var actions: map<string, Action>
    var results: map<string, int>
    var audit: Audit
    ghost var runs: Runs

    ghost function State(): State
      reads this
    {
      RemoteQueue.State.State(Queue(actions, results), audit, runs)
    }

    constructor ()
      ensures State() == Init()
    {
      actions, results, audit, runs := map[], map[], Audit(map[], map[]), Runs(map[], []);
    }

    method IsUnsettled(r: string) returns (yes: bool)
      requires r in actions
      ensures yes <==> Unsettled(State(), r)
    {
      var a := actions[r];
      var exit := if r in results then Some(results[r]) else None;
      if !Open(a.state, exit) { return false; }
      if r !in audit.cleanups { return true; }
      var k := audit.cleanups[r];
      if k.observation !in audit.observations { return true; }
      var o := audit.observations[k.observation];
      var matching := o.request == r && k.snapshot == o.snapshot && k.guardExit == o.guardExit && o.state.Observed? &&
                      k.grant == a.grant && k.digest == a.digest && k.plan == a.plan &&
                      k.state == a.state && k.updated == a.updated && k.exit == exit;
      return !matching;
    }

    // Some action, of the grant if one is given, that is unsettled, or queued when `queuedToo`.
    method FindBusy(grant: Option<GrantId>, queuedToo: bool) returns (busy: bool)
      ensures busy <==> exists r :: r in actions && (grant.Some? ==> actions[r].grant == grant.value) &&
                                    ((queuedToo && actions[r].state.Queued?) || Unsettled(State(), r))
    {
      var rest := actions.Keys;
      while rest != {}
        invariant rest <= actions.Keys
        invariant forall r | r in actions && r !in rest ::
                    !((grant.Some? ==> actions[r].grant == grant.value)
                        && ((queuedToo && actions[r].state.Queued?) || Unsettled(State(), r)))
        decreases rest
      {
        var r :| r in rest;
        var unsettled := IsUnsettled(r);
        if (grant.None? || actions[r].grant == grant.value) && ((queuedToo && actions[r].state.Queued?) || unsettled) {
          return true;
        }
        rest := rest - {r};
      }
      return false;
    }

    method OldestQueued() returns (row: Option<string>)
      ensures row.Some? ==> Next(State(), row.value)
      ensures row.None? ==> forall r | r in actions :: !actions[r].state.Queued?
    {
      row := None;
      var rest := actions.Keys;
      while rest != {}
        invariant rest <= actions.Keys
        invariant row.Some? ==> row.value in actions && actions[row.value].state.Queued?
        invariant forall r | r in actions && r !in rest && actions[r].state.Queued? ::
            row.Some? && actions[row.value].created <= actions[r].created
        decreases rest
      {
        var r :| r in rest;
        if actions[r].state.Queued? && (row.None? || actions[r].created < actions[row.value].created) {
          row := Some(r);
        }
        rest := rest - {r};
      }
    }

    method Submit(r: string, grant: GrantId, digest: string, plan: string, admitted: bool,
        at: int) returns (reply: Reply)
      modifies this`actions
      ensures reply == SubmitReply(old(State()), r, grant, digest, admitted)
      ensures State() == RemoteQueue.Submit(old(State()), r, grant, digest, plan, admitted, at)
    {
      if !admitted { return Rejected; }
      if r in actions {
        var a := actions[r];
        return if a.grant == grant && a.digest == digest then Accepted(a.state) else Rejected;
      }
      var busy := FindBusy(Some(grant), true);
      assert busy <==> GrantBusy(State(), grant);
      if busy { return Rejected; }
      actions := actions[r := Action(grant, digest, plan, Queued, at, at)];
      return Accepted(Queued);
    }

    method Begin(w: World) returns (result: Result)
      modifies this
      ensures result.Busy? <==> Occupied(old(State()))
      ensures result.Idle? <==> !Occupied(old(State())) && forall r | r in old(actions) ::
                                !old(actions)[r].state.Queued?
      ensures result.Busy? || result.Idle? ==> State() == old(State())
      ensures result.Refused? ==> !w.live
      ensures result.Ran? ==> w.live && Next(old(State()), result.request)
      ensures !result.Stopped?
      ensures result.Ran? ==> State() == Start(old(State()), result.request, true, w.at)
      ensures result.Refused? ==> exists r :: Next(old(State()), r) && State() == Start(old(State()), r, false, w.at)
    {
      var busy := FindBusy(None, false);
      assert busy <==> Occupied(State());
      if busy { return Result.Busy; }
      var row := OldestQueued();
      if row.None? { return Idle; }
      var r := row.value;
      if !w.live {
        actions := actions[r := actions[r].(state := Cancelled, updated := w.at)];
        assert State() == Start(old(State()), r, false, w.at);
        return Refused;
      }
      actions := actions[r := actions[r].(state := Running, updated := w.at)];
      runs := runs.(phases := runs.phases[r := Started]);
      return Ran(r, Running);
    }

    // After the send: the result is recorded in one transaction, or the outcome is unknown.
    method RecordSent(r: string, w: World)
      requires Inv(State()) && r in actions && InPhase(State(), r, Executed)
      modifies this
      ensures State() == Apply(old(State()), Recording(r, w)) && audit == old(audit)
      ensures InPhase(State(), r, Closing(Received(w))) && runs.executed == old(runs.executed)
      ensures r in actions && actions[r].state in {Running, Received(w)}
      ensures actions == old(actions)[r := old(actions[r]).(state := actions[r].state, updated := actions[r].updated)]
    {
      assert PhaseFits(State(), r) && ResultFits(actions[r].state, Exit(State(), r));
      hide Inv, PhaseFits, ResultFits;
      var state := Received(w);
      if !w.faultAfter && w.liveAtRecord && w.wellFormed && ValidCode(w.code) {
        actions := actions[r := actions[r].(state := state, updated := w.at)];
        results := results[r := w.code];
      }
      runs := runs.(phases := runs.phases[r := Closing(state)]);
    }

    // From the send to the end of the `try` block.
    method SendAndRecord(r: string, w: World) returns (state: ActionState, ghost trace: seq<Event>)
      requires Inv(State()) && r in actions && InPhase(State(), r, Ready)
      modifies this
      ensures State() == Fold(Apply, old(State()), trace) && audit == old(audit)
      ensures trace == [RunCommand(r), Recording(r, w)]
      ensures state == Received(w) && InPhase(State(), r, Closing(state)) && runs.executed == old(runs.executed) + [r]
      ensures r in actions && actions[r].state in {Running, state}
      ensures actions == old(actions)[r := old(actions[r]).(state := actions[r].state, updated := actions[r].updated)]
    {
      FoldOne(Apply, old(State()), RunCommand(r));
      StepKeeps(old(State()), RunCommand(r));
      hide Inv, Fold;
      runs := Runs(runs.phases[r := Executed], runs.executed + [r]);
      assert State() == Apply(old(State()), RunCommand(r));
      RecordSent(r, w);
      FoldSnoc(Apply, old(State()), [RunCommand(r)], Recording(r, w));
      state, trace := Received(w), [RunCommand(r)] + [Recording(r, w)];
    }

    // From the committed start to the end of the `try` block; yields the local variable `state`.
    method Execute(r: string, w: World) returns (state: ActionState, ghost trace: seq<Event>)
      requires Inv(State()) && r in actions && actions[r].state.Running? && InPhase(State(), r, Started)
      modifies this
      ensures State() == Fold(Apply, old(State()), trace) && trace == Steps(r, w)
      ensures state == Outcome(w) && InPhase(State(), r, Closing(state)) && audit == old(audit)
      ensures runs.executed == old(runs.executed) + (if Sends(w) then [r] else [])
      ensures r in actions && actions ==
          old(actions)[r := old(actions[r]).(state := actions[r].state, updated := actions[r].updated)]
      ensures actions[r].state in {Running, state}
    {
      state := Unknown;
      if w.faultBefore {
        runs := runs.(phases := runs.phases[r := Closing(Unknown)]);
        trace := [FaultRun(r)];
        FoldOne(Apply, old(State()), FaultRun(r));
      } else if !w.matched {
        state := Cancelled;
        runs := runs.(phases := runs.phases[r := Closing(Cancelled)]);
        trace := [AbortRun(r)];
        FoldOne(Apply, old(State()), AbortRun(r));
      } else if !w.liveAtCheck {
        runs := runs.(phases := runs.phases[r := Closing(Unknown)]);
        trace := [CheckRun(r, false)];
        FoldOne(Apply, old(State()), CheckRun(r, false));
      } else {
        runs := runs.(phases := runs.phases[r := Ready]);
        FoldOne(Apply, old(State()), CheckRun(r, true));
        StepKeeps(old(State()), CheckRun(r, true));
        ghost var rest;
        hide Inv, Fold;
        state, rest := SendAndRecord(r, w);
        FoldJoin(Apply, old(State()), [CheckRun(r, true)], rest);
        trace := [CheckRun(r, true)] + rest;
      }
    }

    // The `finally` block.
    method Finish(r: string, state: ActionState, at: int)
      requires r in actions && InPhase(State(), r, Closing(state))
      modifies this
      ensures State() == Close(old(State()), r, at)
    {
      if actions[r].state.Running? || actions[r].state.Cancelled? {
        actions := actions[r := actions[r].(state := state, updated := at)];
      }
      runs := runs.(phases := runs.phases[r := Closed]);
    }

    // A started action to its end.
    method RunStarted(r: string, w: World) returns (state: ActionState, ghost trace: seq<Event>)
      requires Inv(State()) && r in actions && actions[r].state.Running? && InPhase(State(), r, Started)
      modifies this
      ensures State() == Fold(Apply, old(State()), trace) && trace == Steps(r, w) + [CloseRun(r, w.at)]
      ensures state == Outcome(w) && r in actions
      ensures actions == old(actions)[r := old(actions[r]).(state := state, updated := actions[r].updated)]
      ensures runs.executed == old(runs.executed) + (if Sends(w) then [r] else [])
    {
      state, trace := Execute(r, w);
      KeepAll(old(State()), trace);
      ghost var executed := State();
      assert PhaseFits(executed, r);
      hide Inv, Fold;
      Finish(r, state, w.at);
      FoldSnoc(Apply, old(State()), trace, CloseRun(r, w.at));
      trace := trace + [CloseRun(r, w.at)];
    }

    /** One pass of the consumer: it runs the oldest queued action only when nothing is unsettled,
        sends its command at most once, and leaves it in the state it reports, never running. */
    method RunOne(stop: bool, w: World) returns (result: Result, ghost trace: seq<Event>)
      requires Inv(State())
      modifies this
      ensures State() == Fold(Apply, old(State()), trace)
      ensures result.Stopped? <==> stop
      ensures result.Busy? <==> !stop && Occupied(old(State()))
      ensures result.Idle? <==>
                !stop && !Occupied(old(State())) && forall r | r in old(actions) :: !old(actions)[r].state.Queued?
      ensures match result
              case Ran(r, _) => w.live && trace == [StartRun(r, true, w.at)] + (Steps(r, w) + [CloseRun(r, w.at)])
              case Refused => !w.live && exists r :: Next(old(State()), r) && trace == [StartRun(r, false, w.at)]
              case _ => trace == []
      ensures result.Stopped? || result.Busy? || result.Idle? ==> State() == old(State())
      ensures result.Ran? ==>
                && Next(old(State()), result.request) && result.state == Outcome(w)
                && result.request in actions
                && actions == old(actions)[result.request := old(actions[result.request]).(state := result.state,
                    updated := actions[result.request].updated)]
                && runs.executed == old(runs.executed) + (if Sends(w) then [result.request] else [])
      ensures !result.Ran? ==> runs.executed == old(runs.executed)
    {
      trace := [];
      if stop { return Stopped, trace; }
      result := Begin(w);
      if result.Busy? || result.Idle? { return; }
      if result.Refused? {
        ghost var r :| Next(old(State()), r) && State() == Start(old(State()), r, false, w.at);
        trace := [StartRun(r, false, w.at)];
        FoldOne(Apply, old(State()), trace[0]);
        return;
      }
      var r := result.request;
      StepKeeps(old(State()), StartRun(r, true, w.at));
      FoldOne(Apply, old(State()), StartRun(r, true, w.at));
      assert actions[r].state.Running? && InPhase(State(), r, Started);
      hide Inv, Fold, Outcome, Sends, Steps;
      ghost var rest;
      var state;
      state, rest := RunStarted(r, w);
      FoldJoin(Apply, old(State()), [StartRun(r, true, w.at)], rest);
      trace := [StartRun(r, true, w.at)] + rest;
      result := Ran(r, state);
    }

    // The committed intent to probe an action.
    method BeginObservation(o: string, r: string, context: string) returns (ok: bool)
      modifies this`audit
      ensures State() == RemoteQueue.BeginObservation(old(State()), o, r, context)
      ensures ok <==> o !in old(audit).observations && r in actions
    {
      if o in audit.observations || r !in actions { return false; }
      audit := audit.(observations := audit.observations[o := Observation(r, Snapshot(actions[r], context), Pending,
          None)]);
      return true;
    }

    // The probe counts only if the action and its surroundings did not change meanwhile.
    method EndObservation(o: string, context: string, answer: Option<int>) returns (state: ObservationState)
      requires o in audit.observations && audit.observations[o].state.Pending?
          && audit.observations[o].request in actions
      modifies this`audit
      ensures State() == RemoteQueue.EndObservation(old(State()), o, context, answer)
      ensures state.Observed? <==> answer.Some? && old(audit).observations[o].snapshot ==
                                   Snapshot(actions[old(audit).observations[o].request], context)
    {
      var row := audit.observations[o];
      if Snapshot(actions[row.request], context) != row.snapshot {
        row := row.(state := Stale);
      } else if answer.Some? {
        row := row.(state := Observed, guardExit := answer);
      } else {
        row := row.(state := Unavailable);
      }
      audit := audit.(observations := audit.observations[o := row]);
      return row.state;
    }

    method ApplyCleanup(r: string, o: string, context: string, exited: bool, confirmed: bool) returns (ok: bool)
      modifies this`audit
      ensures State() == RecordCleanup(old(State()), r, o, context, exited, confirmed)
      ensures ok <==> r !in old(audit).cleanups && confirmed && CleanupAllowed(old(State()), r, o, context, exited)
    {
      if r in audit.cleanups || !confirmed { return false; }
      if r !in actions || !actions[r].state.Unknown? || o !in audit.observations { return false; }
      var a, row := actions[r], audit.observations[o];
      if row.request != r || !row.state.Observed? || row.snapshot != Snapshot(a, context) || !exited { return false; }
      if row.guardExit.None? || !(0 <= row.guardExit.value <= 255) { return false; }
      var exit := if r in results then Some(results[r]) else None;
      if exit.Some? && Conclusive(exit.value) && exit.value != row.guardExit.value { return false; }
      audit := audit.(cleanups := audit.cleanups[r :=
        Cleanup(o, row.snapshot, row.guardExit, a.grant, a.digest, a.plan, a.state, a.updated, exit)]);
      return true;
    }
  }

  lemma {:induction false} KeepAll(s: State, es: seq<Event>)
    requires Inv(s)
    ensures Inv(Fold(Apply, s, es))
  {
    if es != [] {
      KeepAll(s, es[..|es| - 1]);
      StepKeeps(Fold(Apply, s, es[..|es| - 1]), es[|es| - 1]);
    }
  }

}
