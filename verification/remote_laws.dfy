/**
 What each transaction of the remote queue does and when, in terms of rows, exit codes and answers alone.
 */
module RemoteLaws {
  import opened Options
  import opened RemoteQueue

  // A command may still be running, or its outcome is unknown and not cleaned up.
  predicate Unresolved(s: State, r: string) {
    r in s.queue.actions &&
    (s.queue.actions[r].state == Running || (s.queue.actions[r].state == Unknown && r !in s.audit.cleanups))
  }

  function WithAction(s: State, r: string, a: Action): State {
    s.(queue := s.queue.(actions := s.queue.actions[r := a]))
  }

  function WithPhase(s: State, r: string, p: Phase): State {
    s.(runs := s.runs.(phases := s.runs.phases[r := p]))
  }

  lemma UnresolvedIsUnsettled(es: seq<Event>)
    ensures forall r :: Unsettled(Run(es), r) <==> Unresolved(Run(es), r)
  {
    RunKeeps(es);
    forall r ensures Unsettled(Run(es), r) <==> Unresolved(Run(es), r) { UnsettledIsLoose(Run(es), r); }
  }

  // ---- submission -----------------------------------------------------------------------------------

  /** A new action is queued if and only if it is admitted, its request is new and its grant has no queued
      or unresolved action. It holds exactly the submitted grant, digest and plan; a refused or repeated
      submission changes nothing. */
  lemma SubmitsIff(es: seq<Event>, r: string, grant: GrantId, digest: string, plan: string, admitted: bool, at: int)
    ensures var s, t := Run(es), Run(es + [SubmitAction(r, grant, digest, plan, admitted, at)]);
            var busy := exists q :: q in s.queue.actions && s.queue.actions[q].grant == grant &&
                                    (s.queue.actions[q].state == Queued || Unresolved(s, q));
            t == if admitted && r !in s.queue.actions && !busy
                 then WithAction(s, r, Action(grant, digest, plan, Queued, at, at)) else s
    ensures var s := Run(es);
            var busy := exists q :: q in s.queue.actions && s.queue.actions[q].grant == grant &&
                                    (s.queue.actions[q].state == Queued || Unresolved(s, q));
            SubmitReply(s, r, grant, digest, admitted) ==
              if !admitted then Rejected
              else if r in s.queue.actions then
                (if s.queue.actions[r].grant == grant && s.queue.actions[r].digest == digest
                    then Accepted(s.queue.actions[r].state) else Rejected)
              else if busy then Rejected
              else Accepted(Queued)
  {
    RunSnoc(es, SubmitAction(r, grant, digest, plan, admitted, at));
    UnresolvedIsUnsettled(es);
    var s := Run(es);
    hide Run, Unsettled, Unresolved;
    if q :|
      && q in s.queue.actions && s.queue.actions[q].grant == grant
      && (s.queue.actions[q].state == Queued || Unsettled(s, q))
    {
      assert s.queue.actions[q].state == Queued || Unresolved(s, q);
    }
  }

  /** What was submitted stays: in every continuation the action holds the same grant, digest, plan and
      creation time. */
  lemma {:induction false} ContentIsFixed(es: seq<Event>, more: seq<Event>, r: string)
    requires r in Run(es).queue.actions
    ensures r in Run(es + more).queue.actions
    ensures var a, b := Run(es).queue.actions[r], Run(es + more).queue.actions[r];
            b == a.(state := b.state, updated := b.updated)
    decreases |more|
  {
    hide Run;
    if more == [] {
      assert es + more == es;
    } else {
      var front, e := more[..|more| - 1], more[|more| - 1];
      ContentIsFixed(es, front, r);
      assert es + more == (es + front) + [e];
      RunSnoc(es + front, e);
      ContentStep(Run(es + front), e, r);
    }
  }

  lemma ContentStep(s: State, e: Event, r: string)
    requires r in s.queue.actions
    ensures r in Apply(s, e).queue.actions
    ensures var a, b := s.queue.actions[r], Apply(s, e).queue.actions[r];
        b == a.(state := b.state, updated := b.updated)
  {
    hide Unsettled, Matches, GrantBusy, Occupied, Next, CleanupAllowed;
  }

  // ---- one run --------------------------------------------------------------------------------------

  /** An action is started if and only if nothing is unresolved, it is the oldest queued one and its task
      is live; the oldest queued one whose task is not live is cancelled; nothing else is touched. */
  lemma StartsIff(es: seq<Event>, r: string, live: bool, at: int)
    ensures var s, t := Run(es), Run(es + [StartRun(r, live, at)]);
            var chosen := (forall q :: !Unresolved(s, q)) && r in s.queue.actions
                && s.queue.actions[r].state == Queued &&
                          forall q | q in s.queue.actions && s.queue.actions[q].state == Queued ::
                            s.queue.actions[r].created <= s.queue.actions[q].created;
            t == if !chosen then s
                 else if live then WithPhase(WithAction(s, r, s.queue.actions[r].(state := Running, updated := at)), r,
                                   Started)
                 else WithAction(s, r, s.queue.actions[r].(state := Cancelled, updated := at))
  {
    RunSnoc(es, StartRun(r, live, at));
    UnresolvedIsUnsettled(es);
    var s := Run(es);
    hide Run, Unsettled;
    assert Occupied(s) <==> exists q :: Unresolved(s, q) by {
      if q :| Unresolved(s, q) { assert q in s.queue.actions && Unsettled(s, q); }
    }
  }

  /** The steps of a run, in order: a failed preflight ends it as cancelled before anything is sent; a
      check lets it be sent only when live; the send happens once, after the check; a fault at any point
      leaves its outcome unknown. */
  lemma RunSteps(s: State, r: string, live: bool)
    ensures var was := if r in s.runs.phases then Some(s.runs.phases[r]) else None;
            && Apply(s, AbortRun(r)) == (if was == Some(Started) then WithPhase(s, r, Closing(Cancelled)) else s)
            && Apply(s, CheckRun(r, live)) ==
                 (if was == Some(Started) then WithPhase(s, r, if live then Ready else Closing(Unknown)) else s)
            && Apply(s, RunCommand(r)) ==
                 (if was == Some(Ready) then s.(runs := Runs(s.runs.phases[r := Executed], s.runs.executed + [r]))
                                             else s)
            && Apply(s, FaultRun(r)) ==
                 (if was == Some(Started) || was == Some(Ready) || was == Some(Executed)
                     then WithPhase(s, r, Closing(Unknown)) else s)
  {}

  // What an exit code says about the command.
  function Means(code: int): ActionState {
    if code == 0 then Succeeded
    else if 1 <= code <= 123 || 126 <= code <= 254 then Failed
    else Unknown
  }

  /** A result is stored if and only if the command was sent, its task is still live and the answer is well
      formed with a code of -255 to 255; the action then has exactly that code and the state it means.
      Otherwise the run ends with an unknown outcome and no result. */
  lemma RecordsIff(es: seq<Event>, r: string, live: bool, code: int, wellFormed: bool, at: int)
    ensures var s, t := Run(es), Run(es + [RecordResult(r, live, code, wellFormed, at)]);
            if !(r in s.runs.phases && s.runs.phases[r] == Executed) then t == s
            else if !live || !wellFormed || code < -255 || code > 255 then t == WithPhase(s, r, Closing(Unknown))
            else r in s.queue.actions && t == WithResult(s, r, code, at)
  {
    var s := Run(es);
    RunKeeps(es);
    if r in s.runs.phases && s.runs.phases[r] == Executed {
      assert PhaseFits(s, r) && ResultFits(s.queue.actions[r].state, Exit(s, r));
    }
    RunSnoc(es, RecordResult(r, live, code, wellFormed, at));
    RecordExactly(s, r, live, code, wellFormed, at);
    hide *;
  }

  function WithResult(s: State, r: string, code: int, at: int): State
    requires r in s.queue.actions
  {
    WithPhase(s, r, Closing(Means(code))).(queue :=
      Queue(s.queue.actions[r := s.queue.actions[r].(state := Means(code), updated := at)], s.queue.results[r := code]))
  }

  lemma RecordExactly(s: State, r: string, live: bool, code: int, wellFormed: bool, at: int)
    requires r in s.runs.phases && s.runs.phases[r] == Executed ==>
               PhaseFits(s, r) && ResultFits(s.queue.actions[r].state, Exit(s, r))
    ensures var t := Apply(s, RecordResult(r, live, code, wellFormed, at));
            if !(r in s.runs.phases && s.runs.phases[r] == Executed) then t == s
            else if !live || !wellFormed || code < -255 || code > 255 then t == WithPhase(s, r, Closing(Unknown))
            else r in s.queue.actions && t == WithResult(s, r, code, at)
  {}

  /** The end of a run: an action still running takes the state the run ended with, any other keeps its
      own. */
  lemma ClosesExactly(es: seq<Event>, r: string, at: int)
    ensures var s, t := Run(es), Run(es + [CloseRun(r, at)]);
            if !(r in s.runs.phases && s.runs.phases[r].Closing?) then t == s
            else
              && r in s.queue.actions
              && var a := s.queue.actions[r];
                 var next := if a.state == Running then a.(state := s.runs.phases[r].state, updated := at) else a;
                 t == WithPhase(WithAction(s, r, next), r, Closed)
  {
    RunSnoc(es, CloseRun(r, at));
    RunKeeps(es);
    var s := Run(es);
    if r in s.runs.phases && s.runs.phases[r].Closing? {
      assert PhaseFits(s, r);
      assert s.queue.actions[r := s.queue.actions[r]] == s.queue.actions;
    }
    hide Run, Inv;
  }

  /** An observed exit cancels exactly the queued actions of its grant. */
  lemma CancelsExactly(es: seq<Event>, grant: GrantId, at: int)
    ensures var s, t := Run(es), Run(es + [CancelGrant(grant, at)]);
            && t == s.(queue := s.queue.(actions := t.queue.actions)) && t.queue.actions.Keys == s.queue.actions.Keys
            && forall r | r in s.queue.actions ::
                 var a := s.queue.actions[r];
                 t.queue.actions[r] == if a.grant == grant && a.state == Queued
                     then a.(state := Cancelled, updated := at) else a
  {
    RunSnoc(es, CancelGrant(grant, at));
    RunKeeps(es);
    var s := Run(es);
    forall r | r in s.queue.actions && s.queue.actions[r].state == Queued ensures r !in s.queue.results {
      assert ResultFits(s.queue.actions[r].state, Exit(s, r));
    }
    hide Run, Inv;
  }

  // ---- observation and cleanup --------------------------------------------------------------------------

  /** A probe is recorded before it is made, with the action as it was; it counts as observed if and only
      if the action and its surroundings are still the same and it was answered. */
  lemma ObservesExactly(s: State, o: string, r: string, context: string, answer: Option<int>)
    ensures Apply(s, ObserveStart(o, r, context)) ==
              if o in s.audit.observations || r !in s.queue.actions then s
              else s.(audit := s.audit.(observations :=
                     s.audit.observations[o := Observation(r, Snapshot(s.queue.actions[r], context), Pending, None)]))
    ensures o in s.audit.observations && s.audit.observations[o].state == Pending
            && s.audit.observations[o].request in s.queue.actions ==>
              var row := s.audit.observations[o];
              var same := row.snapshot == Snapshot(s.queue.actions[row.request], context);
              var next :=
                if !same then row.(state := Stale)
                else if answer.None? then row.(state := Unavailable)
                else row.(state := Observed, guardExit := answer);
              Apply(s, ObserveEnd(o, context, answer)) ==
                s.(audit := s.audit.(observations := s.audit.observations[o := next]))
  {}

  // The stored code, if any, is one that could not contradict the guardian, or agrees with it.
  predicate Agrees(s: State, r: string, guard: int) {
    r in s.queue.results ==> Means(s.queue.results[r]) == Unknown || s.queue.results[r] == guard
  }

  // The evidence for this action: observed, unchanged since, with an exit code of the guardian.
  predicate Evidence(s: State, r: string, o: string, context: string)
    requires r in s.queue.actions
  {
    o in s.audit.observations &&
    var row := s.audit.observations[o];
    && row.request == r && row.state == Observed && row.snapshot == Snapshot(s.queue.actions[r], context)
    && row.guardExit.Some? && 0 <= row.guardExit.value <= 255 && Agrees(s, r, row.guardExit.value)
  }

  /** A cleanup is recorded if and only if the outcome is unknown and not cleaned up yet, the operator
      confirmed it, the worker's exit was observed and the evidence fits. The action then counts as
      resolved; nothing else changes. */
  lemma CleansIff(s: State, r: string, o: string, context: string, exited: bool, confirmed: bool)
    ensures var t := Apply(s, ConfirmCleanup(r, o, context, exited, confirmed));
            if confirmed && exited && r !in s.audit.cleanups && r in s.queue.actions
                && s.queue.actions[r].state == Unknown
               && Evidence(s, r, o, context)
            then r in t.audit.cleanups && !Unresolved(t, r) && !Unsettled(t, r)
                 && t == s.(audit := s.audit.(cleanups := s.audit.cleanups[r := t.audit.cleanups[r]]))
            else t == s
  {}
}
