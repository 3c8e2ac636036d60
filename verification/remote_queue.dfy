/**
 The remote action queue: one command at a time on the remote host, and an uncertain outcome
 blocks everything until an operator records a matching cleanup.

 The consumer `run_one` is cut at its transactions: starting, the last heartbeat, sending the command,
 recording the result and the `finally` block are separate steps of one runner, and a crashed runner
 takes no further steps. Sending reads nothing: what the heartbeat found may have changed by then. What the
 broker decides about a grant enters as the flags `admitted` and `live`.
 */
module RemoteQueue {
  import opened Options

  // A grant is named by the job attempt it was issued for.
  datatype GrantId = GrantId(job: string, attempt: nat)

  datatype ActionState = Queued | Running | Succeeded | Failed | Unknown | Cancelled
  datatype Action = Action(grant: GrantId, digest: string, plan: string, state: ActionState, created: int, updated: int)

  // Digest of the action row and of the surrounding job, case and runtime facts.
  datatype Snapshot = Snapshot(action: Action, context: string)
  datatype ObservationState = Pending | Observed | Unavailable | Stale
  datatype Observation = Observation(request: string, snapshot: Snapshot, state: ObservationState,
      guardExit: Option<int>)
  datatype Cleanup = Cleanup(
    observation: string, snapshot: Snapshot, guardExit: Option<int>,
    grant: GrantId, digest: string, plan: string, state: ActionState, updated: int, exit: Option<int>)

  // How far the runner of a started action has got; Closing carries its local `state`.
  datatype Phase = Started | Ready | Executed | Closing(state: ActionState) | Closed

  datatype Queue = Queue(actions: map<string, Action>, results: map<string, int>)
  datatype Audit = Audit(observations: map<string, Observation>, cleanups: map<string, Cleanup>)
  // `executed` is history: the commands handed to the transport, oldest first.
  datatype Runs = Runs(phases: map<string, Phase>, executed: seq<string>)
  datatype State = State(queue: Queue, audit: Audit, runs: Runs)

  function Init(): State {
    State(Queue(map[], map[]), Audit(map[], map[]), Runs(map[], []))
  }

  // ---- the shared predicate and the exit classification ------------------------------------

  function Exit(s: State, r: string): Option<int> {
    if r in s.queue.results then Some(s.queue.results[r]) else None
  }

  predicate Matches(s: State, r: string)
    requires r in s.queue.actions
  {
    r in s.audit.cleanups &&
    var k := s.audit.cleanups[r];
    var a := s.queue.actions[r];
    k.observation in s.audit.observations &&
    var o := s.audit.observations[k.observation];
    && o.request == r && k.snapshot == o.snapshot && k.guardExit == o.guardExit && o.state.Observed?
    && k.grant == a.grant && k.digest == a.digest && k.plan == a.plan
    && k.state == a.state && k.updated == a.updated && k.exit == Exit(s, r)
  }

  // The states and exit codes that leave a remote command unaccounted for.
  predicate Open(state: ActionState, exit: Option<int>) {
    || state.Running? || state.Unknown?
    || ((state.Queued? || state.Cancelled?) && exit.Some?)
    || ((state.Succeeded? || state.Failed?) &&
        (exit.None? || !((state.Succeeded? && exit.value == 0) ||
                         (state.Failed? && 1 <= exit.value <= 254 && exit.value !in {124, 125}))))
  }

  predicate Unsettled(s: State, r: string) {
    r in s.queue.actions && Open(s.queue.actions[r].state, Exit(s, r)) && !Matches(s, r)
  }

  // SSH transport failures and reserved guardian codes are not a command exit.
  function Classify(code: int): ActionState {
    if code in {124, 125, 255} || code < 0 then Unknown
    else if code == 0 then Succeeded
    else Failed
  }

  predicate ValidCode(code: int) { -255 <= code <= 255 }

  // ---- transactions ----------------------------------------------------------------------------

  datatype Reply = Rejected | Accepted(state: ActionState)

  predicate GrantBusy(s: State, grant: GrantId) {
    exists r :: r in s.queue.actions && s.queue.actions[r].grant == grant
                && (s.queue.actions[r].state.Queued? || Unsettled(s, r))
  }

  function SubmitReply(s: State, r: string, grant: GrantId, digest: string, admitted: bool): Reply {
    if !admitted then Rejected
    else if r in s.queue.actions then
      var a := s.queue.actions[r];
      if a.grant == grant && a.digest == digest then Accepted(a.state) else Rejected
    else if GrantBusy(s, grant) then Rejected
    else Accepted(Queued)
  }

  function SetAction(s: State, r: string, a: Action): State {
    s.(queue := s.queue.(actions := s.queue.actions[r := a]))
  }

  function SetPhase(s: State, r: string, p: Phase): State {
    s.(runs := s.runs.(phases := s.runs.phases[r := p]))
  }

  function Submit(s: State, r: string, grant: GrantId, digest: string, plan: string, admitted: bool, at: int): State {
    if SubmitReply(s, r, grant, digest, admitted).Rejected? || r in s.queue.actions then s
    else SetAction(s, r, Action(grant, digest, plan, Queued, at, at))
  }

  predicate Occupied(s: State) {
    exists r :: r in s.queue.actions && Unsettled(s, r)
  }

  // The oldest queued action; ties in creation time are broken arbitrarily.
  predicate Next(s: State, r: string) {
    && r in s.queue.actions && s.queue.actions[r].state.Queued?
    && forall q | q in s.queue.actions && s.queue.actions[q].state.Queued? ::
        s.queue.actions[r].created <= s.queue.actions[q].created
  }

  function Start(s: State, r: string, live: bool, at: int): State {
    if Occupied(s) || !Next(s, r) then s
    else if !live then SetAction(s, r, s.queue.actions[r].(state := Cancelled, updated := at))
    else SetPhase(SetAction(s, r, s.queue.actions[r].(state := Running, updated := at)), r, Started)
  }

  predicate InPhase(s: State, r: string, p: Phase) {
    r in s.runs.phases && s.runs.phases[r] == p
  }

  predicate Busy(s: State, r: string) {
    InPhase(s, r, Started) || InPhase(s, r, Ready) || InPhase(s, r, Executed)
  }

  // A failed baseline or source preflight ends the run before any command is sent.
  function Abort(s: State, r: string): State {
    if !InPhase(s, r, Started) then s else SetPhase(s, r, Closing(Cancelled))
  }

  // Any exception, including a heartbeat that finds the task no longer live.
  function Fault(s: State, r: string): State {
    if !Busy(s, r) then s else SetPhase(s, r, Closing(Unknown))
  }

  // The heartbeat before the command: a transaction of its own, committed before anything is sent.
  function Check(s: State, r: string, live: bool): State {
    if !InPhase(s, r, Started) then s else SetPhase(s, r, if live then Ready else Closing(Unknown))
  }

  // The command is handed to the transport.
  function Transport(s: State, r: string): State {
    if !InPhase(s, r, Ready) then s else s.(runs := Runs(s.runs.phases[r := Executed], s.runs.executed + [r]))
  }

  function Record(s: State, r: string, live: bool, code: int, wellFormed: bool, at: int): State {
    if !InPhase(s, r, Executed) || r !in s.queue.actions then s
    else if !live || !s.queue.actions[r].state.Running? || !wellFormed || !ValidCode(code) || r in s.queue.results
         then SetPhase(s, r, Closing(Unknown))
    else
      var a := s.queue.actions[r].(state := Classify(code), updated := at);
      SetPhase(s.(queue := Queue(s.queue.actions[r := a], s.queue.results[r := code])), r, Closing(Classify(code)))
  }

  // The `finally` block.
  function Close(s: State, r: string, at: int): State {
    if r !in s.runs.phases || !s.runs.phases[r].Closing? || r !in s.queue.actions then s
    else
      var a := s.queue.actions[r];
      var t := if a.state.Running? || a.state.Cancelled?
          then SetAction(s, r, a.(state := s.runs.phases[r].state, updated := at)) else s;
      SetPhase(t, r, Closed)
  }

  // An observed service exit cancels queue entries without any dispatched or result evidence.
  function CancelUnstarted(s: State, grant: GrantId, at: int): State {
    s.(queue := s.queue.(actions := map r | r in s.queue.actions ::
      var a := s.queue.actions[r];
      if a.grant == grant && a.state.Queued? && r !in s.queue.results
          then a.(state := Cancelled, updated := at) else a))
  }

  // Intent is committed before the probe; the snapshot is compared again after it.
  function BeginObservation(s: State, o: string, r: string, context: string): State {
    if o in s.audit.observations || r !in s.queue.actions then s
    else s.(audit := s.audit.(observations := s.audit.observations[o := Observation(r,
         Snapshot(s.queue.actions[r], context), Pending, None)]))
  }

  function EndObservation(s: State, o: string, context: string, answer: Option<int>): State {
    if o !in s.audit.observations || !s.audit.observations[o].state.Pending?
        || s.audit.observations[o].request !in s.queue.actions then s
    else
      var row := s.audit.observations[o];
      var done :=
        if Snapshot(s.queue.actions[row.request], context) != row.snapshot then row.(state := Stale)
        else if answer.Some? then row.(state := Observed, guardExit := answer)
        else row.(state := Unavailable);
      s.(audit := s.audit.(observations := s.audit.observations[o := done]))
  }

  // Exit codes that do not establish a command exit cannot contradict the guardian.
  predicate Conclusive(code: int) { 0 <= code < 255 && code !in {124, 125} }

  predicate CleanupAllowed(s: State, r: string, o: string, context: string, exited: bool) {
    && r in s.queue.actions && s.queue.actions[r].state.Unknown?
    && o in s.audit.observations && s.audit.observations[o].request == r && s.audit.observations[o].state.Observed?
    && s.audit.observations[o].snapshot == Snapshot(s.queue.actions[r], context)
    && exited
    && s.audit.observations[o].guardExit.Some? && 0 <= s.audit.observations[o].guardExit.value <= 255
    && (r in s.queue.results && Conclusive(s.queue.results[r]) ==>
        s.queue.results[r] == s.audit.observations[o].guardExit.value)
  }

  // `confirmed` stands for the preview digest, panel and freshness checks.
  function RecordCleanup(s: State, r: string, o: string, context: string, exited: bool, confirmed: bool): State {
    if r in s.audit.cleanups || !confirmed || !CleanupAllowed(s, r, o, context, exited) then s
    else
      var a := s.queue.actions[r];
      var row := s.audit.observations[o];
      s.(audit := s.audit.(cleanups := s.audit.cleanups[r :=
        Cleanup(o, row.snapshot, row.guardExit, a.grant, a.digest, a.plan, a.state, a.updated, Exit(s, r))]))
  }

  // ---- interleavings -----------------------------------------------------------------------------

  datatype Event =
    | SubmitAction(request: string, grant: GrantId, digest: string, plan: string, admitted: bool, at: int)
    | StartRun(request: string, live: bool, at: int)
    | AbortRun(request: string)
    | FaultRun(request: string)
    | CheckRun(request: string, live: bool)
    | RunCommand(request: string)
    | RecordResult(request: string, live: bool, code: int, wellFormed: bool, at: int)
    | CloseRun(request: string, at: int)
    | CancelGrant(grant: GrantId, at: int)
    | ObserveStart(observation: string, request: string, context: string)
    | ObserveEnd(observation: string, context: string, answer: Option<int>)
    | ConfirmCleanup(request: string, observation: string, context: string, exited: bool, confirmed: bool)

  function Apply(s: State, e: Event): State {
    match e
    case SubmitAction(r, g, d, p, ok, at) => Submit(s, r, g, d, p, ok, at)
    case StartRun(r, live, at) => Start(s, r, live, at)
    case AbortRun(r) => Abort(s, r)
    case FaultRun(r) => Fault(s, r)
    case CheckRun(r, live) => Check(s, r, live)
    case RunCommand(r) => Transport(s, r)
    case RecordResult(r, live, code, ok, at) => Record(s, r, live, code, ok, at)
    case CloseRun(r, at) => Close(s, r, at)
    case CancelGrant(g, at) => CancelUnstarted(s, g, at)
    case ObserveStart(o, r, c) => BeginObservation(s, o, r, c)
    case ObserveEnd(o, c, answer) => EndObservation(s, o, c, answer)
    case ConfirmCleanup(r, o, c, exited, confirmed) => RecordCleanup(s, r, o, c, exited, confirmed)
  }

  function Run(es: seq<Event>): State {
    if es == [] then Init() else Apply(Run(es[..|es| - 1]), es[|es| - 1])
  }

  // ---- invariant -----------------------------------------------------------------------------------

  // The result row agrees with the state it was classified into, and exists nowhere else.
  ghost predicate ResultFits(state: ActionState, exit: Option<int>) {
    match state
    case Succeeded => exit.Some? && ValidCode(exit.value) && Classify(exit.value) == Succeeded
    case Failed => exit.Some? && ValidCode(exit.value) && Classify(exit.value) == Failed
    case Unknown => exit.Some? ==> ValidCode(exit.value) && Classify(exit.value) == Unknown
    case _ => exit.None?
  }

  ghost predicate PhaseFits(s: State, r: string) {
    r in s.queue.actions &&
    var a := s.queue.actions[r];
    && (a.state.Running? ==> r in s.runs.phases && !s.runs.phases[r].Closed?)
    && (a.state.Queued? ==> r !in s.runs.phases && r !in s.runs.executed)
    && (a.state.Cancelled? ==> r !in s.runs.executed)
    && (r in s.runs.phases ==>
          match s.runs.phases[r]
          case Started => a.state.Running? && r !in s.runs.executed
          case Ready => a.state.Running? && r !in s.runs.executed
          case Executed => a.state.Running? && r in s.runs.executed
          case Closing(st) => if a.state.Running? then st.Unknown? || (st.Cancelled? && r !in s.runs.executed)
                                                       else st == a.state && !st.Queued? && !st.Cancelled?
          case Closed => !a.state.Running?)
  }

  ghost predicate Rows(s: State) {
    && s.queue.results.Keys <= s.queue.actions.Keys
    && s.runs.phases.Keys <= s.queue.actions.Keys
    && forall r | r in s.queue.actions :: ResultFits(s.queue.actions[r].state, Exit(s, r)) && PhaseFits(s, r)
  }

  ghost predicate ExecutedOnce(s: State) {
    && (forall i, j | 0 <= i < j < |s.runs.executed| :: s.runs.executed[i] != s.runs.executed[j])
    && (forall i | 0 <= i < |s.runs.executed| :: s.runs.executed[i] in s.queue.actions)
  }

  ghost predicate CleanupsMatch(s: State) {
    forall r | r in s.audit.cleanups :: r in s.queue.actions && s.queue.actions[r].state.Unknown? && Matches(s, r)
  }

  ghost predicate OneLoose(s: State) {
    forall p, q | Loose(s, p) && Loose(s, q) :: p == q
  }

  ghost predicate Inv(s: State) {
    Rows(s) && ExecutedOnce(s) && CleanupsMatch(s) && OneLoose(s)
  }

  // The plain reading of UNSETTLED.
  predicate Loose(s: State, r: string) {
    r in s.queue.actions &&
    (s.queue.actions[r].state.Running? || (s.queue.actions[r].state.Unknown? && r !in s.audit.cleanups))
  }

  // The Python classification and the SQL predicate agree on every exit code a result may hold.
  lemma ClassificationAgrees(code: int, state: ActionState)
    requires ValidCode(code)
    ensures Open(Classify(code), Some(code)) <==> Classify(code).Unknown?
    ensures (state.Succeeded? || state.Failed?) && !Open(state, Some(code)) ==> state == Classify(code)
    ensures !Classify(code).Unknown? <==> Conclusive(code)
  {}

  // In invariant states the SQL predicate says exactly: running, or unknown without a cleanup record.
  lemma UnsettledIsLoose(s: State, r: string)
    requires Inv(s)
    ensures Unsettled(s, r) <==> Loose(s, r)
  {
    hide Classify;
    if r in s.queue.actions {
      assert ResultFits(s.queue.actions[r].state, Exit(s, r));
      if r in s.queue.results { ClassificationAgrees(s.queue.results[r], s.queue.actions[r].state); }
    }
  }

  // ---- preservation ---------------------------------------------------------------------------------

  // One row changes, and no cleanup is recorded for it.
  lemma RowChangeKeeps(s: State, t: State, r: string)
    requires Inv(s) && t.audit == s.audit && r in t.queue.actions && r !in s.audit.cleanups
    requires t.queue.actions.Keys == s.queue.actions.Keys + {r}
    requires t.queue.results.Keys <= s.queue.results.Keys + {r} && t.runs.phases.Keys <= s.runs.phases.Keys + {r}
    requires forall q | q in s.queue.actions && q != r ::
               && t.queue.actions[q] == s.queue.actions[q] && Exit(t, q) == Exit(s, q)
               && (q in t.runs.phases <==> q in s.runs.phases) && (q in s.runs.phases ==>
                   t.runs.phases[q] == s.runs.phases[q])
               && (q in t.runs.executed <==> q in s.runs.executed)
    requires ResultFits(t.queue.actions[r].state, Exit(t, r)) && PhaseFits(t, r)
    requires ExecutedOnce(t)
    requires Loose(t, r) ==> forall q | Loose(s, q) :: q == r
    ensures Inv(t)
  {
    forall q | q in t.queue.actions ensures ResultFits(t.queue.actions[q].state, Exit(t, q)) && PhaseFits(t, q) {
      if q != r { assert PhaseFits(s, q); }
    }
    forall k | k in t.audit.cleanups ensures k in t.queue.actions && t.queue.actions[k].state.Unknown?
        && Matches(t, k) {
      assert Matches(s, k);
    }
    forall q | Loose(t, q) && q != r ensures Loose(s, q) {}
  }

  lemma UnlessUnknownNoCleanup(s: State, r: string)
    requires Inv(s) && (r in s.queue.actions ==> !s.queue.actions[r].state.Unknown?)
    ensures r !in s.audit.cleanups
  {}

  lemma SubmitKeeps(s: State, r: string, grant: GrantId, digest: string, plan: string, admitted: bool, at: int)
    requires Inv(s)
    ensures Inv(Submit(s, r, grant, digest, plan, admitted, at))
  {
    var t := Submit(s, r, grant, digest, plan, admitted, at);
    if t != s {
      assert r !in s.queue.actions;
      UnlessUnknownNoCleanup(s, r);
      RowChangeKeeps(s, t, r);
    }
  }

  lemma StartKeeps(s: State, r: string, live: bool, at: int)
    requires Inv(s)
    ensures Inv(Start(s, r, live, at))
  {
    if !Occupied(s) && Next(s, r) {
      forall q ensures !Loose(s, q) { UnsettledIsLoose(s, q); }
      assert PhaseFits(s, r);
      RowChangeKeeps(s, Start(s, r, live, at), r);
    }
  }

  lemma PhaseKeeps(s: State, r: string, p: Phase)
    requires Inv(s) && Busy(s, r)
    requires p == Closing(Unknown) || ((p == Closing(Cancelled) || p == Ready) && InPhase(s, r, Started))
    ensures Inv(SetPhase(s, r, p))
  {
    assert PhaseFits(s, r) && Loose(s, r);
    RowChangeKeeps(s, SetPhase(s, r, p), r);
  }

  lemma TransportKeeps(s: State, r: string)
    requires Inv(s)
    ensures Inv(Transport(s, r))
  {
    if InPhase(s, r, Ready) {
      assert PhaseFits(s, r) && Loose(s, r);
      RowChangeKeeps(s, Transport(s, r), r);
    }
  }

  lemma RecordKeeps(s: State, r: string, live: bool, code: int, wellFormed: bool, at: int)
    requires Inv(s)
    ensures Inv(Record(s, r, live, code, wellFormed, at))
  {
    if InPhase(s, r, Executed) && r in s.queue.actions {
      assert PhaseFits(s, r) && Loose(s, r);
      if !live || !wellFormed || !ValidCode(code) || r in s.queue.results {
        PhaseKeeps(s, r, Closing(Unknown));
      } else {
        RowChangeKeeps(s, Record(s, r, live, code, wellFormed, at), r);
      }
    }
  }

  lemma CloseKeeps(s: State, r: string, at: int)
    requires Inv(s)
    ensures Inv(Close(s, r, at))
  {
    if r in s.runs.phases && s.runs.phases[r].Closing? {
      assert PhaseFits(s, r);
      if s.queue.actions[r].state.Running? {
        assert Loose(s, r);
        RowChangeKeeps(s, Close(s, r, at), r);
      } else {
        ClosedKeeps(s, r);
      }
    }
  }

  lemma ClosedKeeps(s: State, r: string)
    requires Inv(s) && r in s.runs.phases && r in s.queue.actions && !s.queue.actions[r].state.Running?
    ensures Inv(SetPhase(s, r, Closed))
  {
    var t := SetPhase(s, r, Closed);
    forall q | q in t.queue.actions ensures ResultFits(t.queue.actions[q].state, Exit(t, q)) && PhaseFits(t, q) {
      assert ResultFits(s.queue.actions[q].state, Exit(s, q)) && PhaseFits(s, q);
    }
    forall k | k in t.audit.cleanups ensures k in t.queue.actions && t.queue.actions[k].state.Unknown?
        && Matches(t, k) {
      assert Matches(s, k);
    }
    forall q | Loose(t, q) ensures Loose(s, q) {}
  }

  lemma CancelKeeps(s: State, grant: GrantId, at: int)
    requires Inv(s)
    ensures Inv(CancelUnstarted(s, grant, at))
  {
    var t := CancelUnstarted(s, grant, at);
    forall q | q in t.queue.actions ensures ResultFits(t.queue.actions[q].state, Exit(t, q)) && PhaseFits(t, q) {
      assert ResultFits(s.queue.actions[q].state, Exit(s, q)) && PhaseFits(s, q);
    }
    forall k | k in t.audit.cleanups ensures k in t.queue.actions && t.queue.actions[k].state.Unknown?
        && Matches(t, k) {
      assert Matches(s, k);
    }
    forall q | Loose(t, q) ensures Loose(s, q) {}
  }

  lemma AuditKeeps(s: State, t: State)
    requires Inv(s) && t.queue == s.queue && t.runs == s.runs
    requires s.audit.cleanups.Keys <= t.audit.cleanups.Keys
    requires forall k | k in s.audit.cleanups :: t.audit.cleanups[k] == s.audit.cleanups[k]
    requires forall k | k in t.audit.cleanups && k !in s.audit.cleanups ::
        k in t.queue.actions && t.queue.actions[k].state.Unknown? && Matches(t, k)
    requires forall o | o in s.audit.observations && s.audit.observations[o].state.Observed? ::
               o in t.audit.observations && t.audit.observations[o] == s.audit.observations[o]
    ensures Inv(t)
  {
    forall q | q in t.queue.actions ensures PhaseFits(t, q) { assert PhaseFits(s, q); }
    forall k | k in t.audit.cleanups ensures k in t.queue.actions && t.queue.actions[k].state.Unknown?
        && Matches(t, k) {
      if k in s.audit.cleanups { assert Matches(s, k); }
    }
    forall q | Loose(t, q) ensures Loose(s, q) {}
  }

  lemma StepKeeps(s: State, e: Event)
    requires Inv(s)
    ensures Inv(Apply(s, e))
  {
    match e
    case SubmitAction(r, g, d, p, ok, at) => SubmitKeeps(s, r, g, d, p, ok, at);
    case StartRun(r, live, at) => StartKeeps(s, r, live, at);
    case AbortRun(r) => if InPhase(s, r, Started) { PhaseKeeps(s, r, Closing(Cancelled)); }
    case FaultRun(r) => if Busy(s, r) { PhaseKeeps(s, r, Closing(Unknown)); }
    case CheckRun(r, live) => if InPhase(s, r, Started) { PhaseKeeps(s, r, if live then Ready else Closing(Unknown)); }
    case RunCommand(r) => TransportKeeps(s, r);
    case RecordResult(r, live, code, ok, at) => RecordKeeps(s, r, live, code, ok, at);
    case CloseRun(r, at) => CloseKeeps(s, r, at);
    case CancelGrant(g, at) => CancelKeeps(s, g, at);
    case ObserveStart(o, r, c) => AuditKeeps(s, Apply(s, e));
    case ObserveEnd(o, c, answer) => AuditKeeps(s, Apply(s, e));
    case ConfirmCleanup(r, o, c, exited, confirmed) => AuditKeeps(s, Apply(s, e));
  }

  lemma {:induction false} RunKeeps(es: seq<Event>)
    ensures Inv(Run(es))
  {
    if es != [] {
      RunKeeps(es[..|es| - 1]);
      StepKeeps(Run(es[..|es| - 1]), es[|es| - 1]);
    }
  }

  // ---- theorems over whole runs -------------------------------------------------------------------------

  /** Every request is handed to the transport at most once, whatever crashes, retries of the
      submission and cleanups occur, and only requests that were accepted. */
  lemma ExecutedAtMostOnce(es: seq<Event>, i: nat, j: nat)
    requires i < |Run(es).runs.executed| && j < |Run(es).runs.executed|
    requires Run(es).runs.executed[i] == Run(es).runs.executed[j]
    ensures i == j && Run(es).runs.executed[i] in Run(es).queue.actions
  {
    RunKeeps(es);
  }

  /** At most one remote action is unsettled at any time. */
  lemma OneUnsettled(es: seq<Event>, p: string, q: string)
    requires Unsettled(Run(es), p) && Unsettled(Run(es), q)
    ensures p == q
  {
    RunKeeps(es);
    UnsettledIsLoose(Run(es), p);
    UnsettledIsLoose(Run(es), q);
  }

  /** In every reachable state UNSETTLED holds exactly for actions that are running, or unknown
      without a cleanup record; a recorded cleanup always matches its action. */
  lemma UnsettledExactly(es: seq<Event>, r: string)
    requires r in Run(es).queue.actions
    ensures var s := Run(es);
            && (Unsettled(s, r) <==> s.queue.actions[r].state.Running?
                                     || (s.queue.actions[r].state.Unknown? && r !in s.audit.cleanups))
            && (r in s.audit.cleanups <==> Matches(s, r))
  {
    RunKeeps(es);
    UnsettledIsLoose(Run(es), r);
  }

  /** A cancelled action was never sent to the remote host. */
  lemma CancelledNeverRan(es: seq<Event>, r: string)
    requires r in Run(es).queue.actions && Run(es).queue.actions[r].state.Cancelled?
    ensures r !in Run(es).runs.executed
  {
    RunKeeps(es);
    assert PhaseFits(Run(es), r);
  }

  lemma RunSnoc(es: seq<Event>, e: Event)
    ensures Run(es + [e]) == Apply(Run(es), e)
  {
    assert (es + [e])[..|es|] == es;
  }

  lemma ExecutedGrowsFrom(s: State, e: Event)
    ensures Apply(s, e).runs.executed != s.runs.executed ==>
              e.RunCommand? && InPhase(s, e.request, Ready) && Apply(s, e).runs.executed ==
                  s.runs.executed + [e.request]
  {}

  /** While some action's outcome is uncertain and not cleaned up, no command is executed. */
  lemma UncertaintyBlocksExecution(es: seq<Event>, e: Event, u: string)
    requires u in Run(es).queue.actions && Run(es).queue.actions[u].state.Unknown? && u !in Run(es).audit.cleanups
    ensures Run(es + [e]).runs.executed == Run(es).runs.executed
  {
    RunSnoc(es, e);
    RunKeeps(es);
    var s := Run(es);
    ExecutedGrowsFrom(s, e);
    if e.RunCommand? && InPhase(s, e.request, Ready) {
      assert PhaseFits(s, e.request);
      assert Loose(s, u) && Loose(s, e.request);
    }
  }

  // What a later event can do to an accepted action.
  lemma ActionStep(s: State, e: Event, r: string)
    requires Inv(s) && r in s.queue.actions
    ensures r in Apply(s, e).queue.actions
    ensures var a, b := s.queue.actions[r], Apply(s, e).queue.actions[r];
            && b.grant == a.grant && b.digest == a.digest && b.plan == a.plan
            && (b.state.Queued? ==> a.state.Queued?)
            && (a.state.Succeeded? || a.state.Failed? || a.state.Unknown? || a.state.Cancelled? ==> b == a)
  {
    assert PhaseFits(s, r);
  }

  /** Submission replay: a repeat of an accepted request, however much later, is answered from the
      stored action when its content is the same and rejected when it differs, with no effect. */
  lemma {:induction false} SubmissionReplay(es: seq<Event>, more: seq<Event>, r: string, grant: GrantId, digest: string,
      plan: string, at: int)
    requires r in Run(es).queue.actions
    ensures var s, t := Run(es), Run(es + more);
            && r in t.queue.actions
            && t.queue.actions[r].grant == s.queue.actions[r].grant && t.queue.actions[r].digest ==
                s.queue.actions[r].digest
            && Submit(t, r, grant, digest, plan, true, at) == t
            && SubmitReply(t, r, grant, digest, true) ==
                 if grant == s.queue.actions[r].grant && digest == s.queue.actions[r].digest
                     then Accepted(t.queue.actions[r].state) else Rejected
    decreases |more|
  {
    hide Run, Apply, Inv;
    if more == [] {
      assert es + more == es;
    } else {
      var front, e := more[..|more| - 1], more[|more| - 1];
      SubmissionReplay(es, front, r, grant, digest, plan, at);
      assert es + more == (es + front) + [e];
      RunSnoc(es + front, e);
      RunKeeps(es + front);
      ActionStep(Run(es + front), e, r);
    }
  }
}
