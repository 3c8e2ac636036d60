/**
 The execution broker: a single-slot launcher that dispatches one coding task at a time,
 assigns it to a worker under an attempt number, authorizes its start once, renews its lease
 and releases its resources only on observed exits.

 The model is the catalog deployment with one configured worker identity. Every
 transaction is one function on `State`. What a transaction reads from outside the database
 (runtime policy, the clock, validity of an immutable input, a budget decision) is part of the
 event, so nothing is assumed about it; in particular clocks need not agree or advance.
 */
module Broker {
  import opened Options
  import Remote = RemoteQueue

  type GrantId = Remote.GrantId

  datatype JobState = Queued | Running | Waiting | Succeeded | Failed | Cancelled | Orphaned
  datatype ErrorClass = NoError | InputInvalid | BudgetBlocked | OtherError
  datatype Job = Job(
    state: JobState, attempt: nat, owner: Option<string>, lease: Option<int>,
    input: string, round: nat, caseId: string, error: ErrorClass)
  datatype CaseRow = CaseRow(executable: bool, round: nat)

  datatype LaunchState = Launching | Accepted | Unresolved | Finished
  // A launch row together with its immutable binding, inserted by the same transaction.
  datatype Launch = Launch(state: LaunchState, job: string, input: string, contract: string)

  // The keyed hash of a claim is injective in what it covers.
  datatype Token = Token(request: string, digest: string, key: string)
  datatype Task = Task(job: string, attempt: nat, caseId: string, round: nat, input: string)
  datatype ClaimReceipt = ClaimReceipt(digest: string, key: string, task: Option<Task>)
  datatype Grant = Grant(token: Token, round: nat, input: string, owner: string, created: int, expires: int,
      revoked: bool)

  datatype Start = Start(request: string, at: int, contract: string)
  datatype Resource = Resource(claim: string, settled: bool)
  // An observed service instance and, later, its exit status.
  datatype Unit = Unit(claim: string, invocation: string, exit: Option<int>)
  // A stored response; only a renewal's names an expiry.
  datatype Reply = Reply(digest: string, grant: GrantId, expires: Option<int>)
  datatype BoardAction = BoardAction(grant: GrantId, digest: string, open: bool)

  datatype Slot = Slot(launches: map<string, Launch>, checked: set<string>)
  datatype Tasks = Tasks(jobs: map<string, Job>, cases: map<string, CaseRow>)
  datatype Auth = Auth(receipts: map<string, ClaimReceipt>, grants: map<GrantId, Grant>)
  datatype Exec = Exec(starts: map<GrantId, Start>, resources: map<GrantId, Resource>, units: map<GrantId, Unit>)
  // What workers have written: receipts, reports and queued board operations. `effects` is history:
  // the requests whose handler took effect, oldest first.
  datatype Replies = Replies(
    stored: map<string, Reply>, effects: seq<string>, reports: map<GrantId, string>, board: map<string, BoardAction>)

  // `checked` holds the claim requests that passed `check_claim`, which runs before the claim transaction.
  datatype State = State(slot: Slot, tasks: Tasks, auth: Auth, exec: Exec, replies: Replies, remote: Remote.State)

  function Init(): State {
    State(Slot(map[], {}), Tasks(map[], map[]), Auth(map[], map[]), Exec(map[], map[], map[]),
        Replies(map[], [], map[], map[]), Remote.Init())
  }

  function Id(job: string, attempt: nat): GrantId { Remote.GrantId(job, attempt) }

  const LEASE_SECONDS := 120
  const GRANT_SECONDS := 300
  const LIFETIME_SECONDS := 7200

  function Min(a: int, b: int): int { if a <= b then a else b }

  function SetJob(s: State, job: string, row: Job): State {
    s.(tasks := s.tasks.(jobs := s.tasks.jobs[job := row]))
  }

  function SetLaunch(s: State, q: string, row: Launch): State {
    s.(slot := s.slot.(launches := s.slot.launches[q := row]))
  }

  // ---- dispatch ---------------------------------------------------------------------------

  predicate Unfinished(slot: Slot, q: string) {
    q in slot.launches && !slot.launches[q].state.Finished?
  }

  predicate CaseAllows(s: State, job: Job) {
    job.caseId in s.tasks.cases && s.tasks.cases[job.caseId].executable && s.tasks.cases[job.caseId].round == job.round
  }

  predicate RunsUnsettled(s: State, job: string) {
    job in s.tasks.jobs && s.tasks.jobs[job].state.Running? &&
    var g := Id(job, s.tasks.jobs[job].attempt);
    !(g in s.exec.resources && s.exec.resources[g].settled)
  }

  // `request` is the identifier generated for the launch; `selectable` the input and contract match.
  function Dispatch(s: State, request: string, job: string, contract: string, allowed: bool, selectable: bool): State {
    if !allowed || request in s.slot.launches then s
    else if (exists q :: q in s.slot.launches && Unfinished(s.slot, q)) then s
    else if (exists j :: j in s.tasks.jobs && RunsUnsettled(s, j)) then s
    else if job !in s.tasks.jobs || !s.tasks.jobs[job].state.Queued? || !CaseAllows(s, s.tasks.jobs[job]) || !selectable
         then s
    else SetLaunch(s, request, Launch(Launching, job, s.tasks.jobs[job].input, contract))
  }

  function LaunchAnswer(s: State, request: string, accepted: bool): State {
    if request !in s.slot.launches || !s.slot.launches[request].state.Launching? then s
    else SetLaunch(s, request, s.slot.launches[request].(state := if accepted then Accepted else Unresolved))
  }

  // A queued job whose immutable input does not validate is parked without an attempt.
  function Park(s: State, job: string): State {
    if job !in s.tasks.jobs || !s.tasks.jobs[job].state.Queued? then s
    else SetJob(s, job, s.tasks.jobs[job].(state := Waiting, error := InputInvalid, owner := None, lease := None))
  }

  // ---- claim --------------------------------------------------------------------------------

  // What a worker presents with every request.
  datatype Params = Params(token: Token, job: string, attempt: nat, caseId: string, round: nat, input: string)

  predicate Verified(s: State, p: Params, now: int) {
    var g := Id(p.job, p.attempt);
    g in s.auth.grants &&
    var r := s.auth.grants[g];
    r.token == p.token && !r.revoked && r.created <= now < r.expires
  }

  // The grant and the live task it was issued for, rechecked inside the transaction.
  predicate BoundTask(s: State, p: Params, now: int) {
    Verified(s, p, now) &&
    var r := s.auth.grants[Id(p.job, p.attempt)];
    && r.round == p.round && r.input == p.input
    && p.job in s.tasks.jobs &&
    var j := s.tasks.jobs[p.job];
    && j.caseId == p.caseId && CaseAllows(s, j) && j.state.Running? && j.attempt == p.attempt
    && j.round == r.round && j.input == r.input && j.owner == Some(r.owner)
    && j.lease.Some? && j.lease.value > now
  }

  datatype ClaimRequest = ClaimRequest(request: string, digest: string, key: string)
  datatype ClaimReads = ClaimReads(allowed: bool, contract: string, selectable: bool, inputOk: bool, owner: string,
      now: int)
  datatype ClaimAnswer = ClaimRejected | NoTask | Assigned(task: Task, token: Token)

  // `ActiveCatalog.check_claim`: the request is the one unfinished launch. Runs in its own read.
  function CheckClaim(s: State, request: string): State {
    if !Unfinished(s.slot, request) || (exists q :: q in s.slot.launches && q != request && Unfinished(s.slot, q))
        then s
    else s.(slot := s.slot.(checked := s.slot.checked + {request}))
  }

  function TokenOf(c: ClaimRequest): Token { Token(c.request, c.digest, c.key) }

  function ParamsOf(t: Task, token: Token): Params { Params(token, t.job, t.attempt, t.caseId, t.round, t.input) }

  predicate ClaimOpen(s: State, c: ClaimRequest, r: ClaimReads) {
    c.request in s.slot.checked && c.request in s.slot.launches && r.allowed &&
    var l := s.slot.launches[c.request];
    l.contract == r.contract && l.job in s.tasks.jobs && s.tasks.jobs[l.job].input == l.input
  }

  predicate Claimable(s: State, job: string, r: ClaimReads) {
    job in s.tasks.jobs && s.tasks.jobs[job].state.Queued? && CaseAllows(s, s.tasks.jobs[job]) && r.selectable
  }

  function NewTask(job: string, j: Job): Task { Task(job, j.attempt + 1, j.caseId, j.round, j.input) }

  function ClaimReply(s: State, c: ClaimRequest, r: ClaimReads): ClaimAnswer {
    if !ClaimOpen(s, c, r) then ClaimRejected
    else
      var l := s.slot.launches[c.request];
      if c.request in s.auth.receipts then
        var prior := s.auth.receipts[c.request];
        if prior.digest != c.digest || prior.key != c.key then ClaimRejected
        else if prior.task.None? then NoTask
        else if prior.task.value.job != l.job || prior.task.value.input != l.input then ClaimRejected
        else if !BoundTask(s, ParamsOf(prior.task.value, TokenOf(c)), r.now) then ClaimRejected
        else Assigned(prior.task.value, TokenOf(c))
      else if !Claimable(s, l.job, r) || !r.inputOk then NoTask
      else if Id(l.job, s.tasks.jobs[l.job].attempt + 1) in s.auth.grants then ClaimRejected
      else Assigned(NewTask(l.job, s.tasks.jobs[l.job]), TokenOf(c))
  }

  function Claim(s: State, c: ClaimRequest, r: ClaimReads): State {
    if ClaimReply(s, c, r).ClaimRejected? || c.request in s.auth.receipts then s
    else
      var job := s.slot.launches[c.request].job;
      var receipt := ClaimReceipt(c.digest, c.key, None);
      if !Claimable(s, job, r) then s.(auth := s.auth.(receipts := s.auth.receipts[c.request := receipt]))
      else if !r.inputOk then Park(s, job).(auth := s.auth.(receipts := s.auth.receipts[c.request := receipt]))
      else
        var j := s.tasks.jobs[job];
        var task := NewTask(job, j);
        var lease := r.now + LEASE_SECONDS;
        var grant := Grant(TokenOf(c), j.round, j.input, r.owner, r.now, Min(lease, r.now + GRANT_SECONDS), false);
        SetJob(s, job, j.(state := Running, attempt := j.attempt + 1, owner := Some(r.owner), lease := Some(lease)))
          .(auth := Auth(s.auth.receipts[c.request := receipt.(task := Some(task))],
              s.auth.grants[Id(job, task.attempt) := grant]))
  }

  // ---- start, renewal, budget block --------------------------------------------------------------

  predicate ClaimNames(auth: Auth, claim: string, g: GrantId) {
    claim in auth.receipts && auth.receipts[claim].task.Some? &&
    auth.receipts[claim].task.value.job == g.job && auth.receipts[claim].task.value.attempt == g.attempt
  }

  datatype StartReads = StartReads(allowed: bool, contract: string, inputOk: bool, budgetOk: bool, now: int)

  // `claim` is the one receipt naming this attempt, found by the resource capture.
  predicate StartAllowed(s: State, p: Params, request: string, claim: string, r: StartReads) {
    var g := Id(p.job, p.attempt);
    && r.allowed && r.inputOk && r.budgetOk && BoundTask(s, p, r.now)
    && g !in s.exec.starts && (forall h | h in s.exec.starts :: s.exec.starts[h].request != request)
    && ClaimNames(s.auth, claim, g) && (forall q | q in s.auth.receipts && ClaimNames(s.auth, q, g) :: q == claim)
    && s.auth.receipts[claim].task.value.round == p.round && s.auth.receipts[claim].task.value.input == p.input
    && (forall h | h in s.exec.resources :: s.exec.resources[h].claim != claim)
  }

  function Authorize(s: State, p: Params, request: string, claim: string, r: StartReads): State {
    if !StartAllowed(s, p, request, claim, r) then s
    else
      var g := Id(p.job, p.attempt);
      s.(exec := s.exec.(
        starts := s.exec.starts[g := Start(request, r.now, r.contract)],
        resources := s.exec.resources[g := Resource(claim, false)]))
  }

  // `budgetActive` is the state of the budget attempt and its policy revision.
  predicate RunningValid(s: State, g: GrantId, contract: string, budgetActive: bool) {
    && !(g in s.exec.resources &&
         (s.exec.resources[g].settled ||
          (s.exec.resources[g].claim in s.slot.launches && s.slot.launches[s.exec.resources[g].claim].state.Finished?)))
    && !(g in s.exec.units && s.exec.units[g].exit.Some?)
    && g in s.exec.starts && s.exec.starts[g].contract == contract && budgetActive
  }

  datatype RenewReads = RenewReads(allowed: bool, contract: string, budgetActive: bool, now: int)
  datatype RenewAnswer = RenewRejected | Renewed(expires: int)

  predicate RenewOpen(s: State, p: Params, r: RenewReads) {
    r.allowed && BoundTask(s, p, r.now) &&
    (Id(p.job, p.attempt) in s.exec.starts ==> RunningValid(s, Id(p.job, p.attempt), r.contract, r.budgetActive))
  }

  // The lease after the handler: untouched before the start, bounded by the lifetime after it.
  function RenewedLease(s: State, p: Params, now: int): Option<int>
    requires p.job in s.tasks.jobs && s.tasks.jobs[p.job].lease.Some?
  {
    var g := Id(p.job, p.attempt);
    if g !in s.exec.starts then s.tasks.jobs[p.job].lease
    else
      var started := s.exec.starts[g].at;
      if !(started <= now < started + LIFETIME_SECONDS) then None
      else Some(Min(now + LEASE_SECONDS, started + LIFETIME_SECONDS))
  }

  function RenewReply(s: State, p: Params, request: string, digest: string, r: RenewReads): RenewAnswer {
    if !RenewOpen(s, p, r) then RenewRejected
    else if request in s.replies.stored then
      var prior := s.replies.stored[request];
      if prior.digest != digest || prior.grant != Id(p.job, p.attempt) || prior.expires.None? then RenewRejected
      else Renewed(prior.expires.value)
    else
      var lease := RenewedLease(s, p, r.now);
      if lease.None? then RenewRejected else Renewed(Min(lease.value, r.now + GRANT_SECONDS))
  }

  function Renew(s: State, p: Params, request: string, digest: string, r: RenewReads): State {
    var answer := RenewReply(s, p, request, digest, r);
    if answer.RenewRejected? || request in s.replies.stored then s
    else
      var g := Id(p.job, p.attempt);
      SetJob(s, p.job, s.tasks.jobs[p.job].(lease := RenewedLease(s, p, r.now)))
        .(auth := s.auth.(grants := s.auth.grants[g := s.auth.grants[g].(expires := answer.expires)]),
          replies := Stored(s.replies, request, Reply(digest, g, Some(answer.expires))))
  }

  // The receipt of a handler that took effect.
  function Stored(replies: Replies, request: string, row: Reply): Replies {
    replies.(stored := replies.stored[request := row], effects := replies.effects + [request])
  }

  datatype ReportAnswer = ReportRejected | ReportAccepted

  // `valid` says that the report has the required sections. A repeat needs a valid grant only.
  function ReportReply(s: State, p: Params, request: string, digest: string, report: string, valid: bool,
      now: int): ReportAnswer {
    var g := Id(p.job, p.attempt);
    if !Verified(s, p, now) then ReportRejected
    else if request in s.replies.stored then
      var prior := s.replies.stored[request];
      if prior.digest != digest || prior.grant != g || prior.expires.Some? then ReportRejected else ReportAccepted
    else if !BoundTask(s, p, now) || !valid || (g in s.replies.reports && s.replies.reports[g] != report)
         then ReportRejected
    else ReportAccepted
  }

  // A worker's report is stored once per attempt and moves nothing else.
  function Report(s: State, p: Params, request: string, digest: string, report: string, valid: bool, now: int): State {
    if ReportReply(s, p, request, digest, report, valid, now).ReportRejected? || request in s.replies.stored then s
    else
      var g := Id(p.job, p.attempt);
      s.(replies := Stored(s.replies, request, Reply(digest, g, None)).(reports := s.replies.reports[g := report]))
  }

  // After a rolled-back budget failure: park only the still-current, unstarted task.
  function BlockUnstarted(s: State, p: Params, now: int): State {
    if !BoundTask(s, p, now) || Id(p.job, p.attempt) in s.exec.starts then s
    else SetJob(s, p.job, s.tasks.jobs[p.job].(state := Waiting, error := BudgetBlocked, owner := None, lease := None))
  }

  // ---- observation and settlement -------------------------------------------------------------------

  function RegisterUnit(s: State, g: GrantId, claim: string, invocation: string): State {
    if g !in s.exec.starts || g !in s.auth.grants || g in s.exec.units then s
    else if !ClaimNames(s.auth, claim, g) || s.auth.receipts[claim].task.value.round != s.auth.grants[g].round
            || s.auth.receipts[claim].task.value.input != s.auth.grants[g].input
            || (exists h :: h in s.exec.units && (s.exec.units[h].claim == claim
                            || s.exec.units[h].invocation == invocation)) then s
    else s.(exec := s.exec.(units := s.exec.units[g := Unit(claim, invocation, None)]))
  }

  function RecordExit(s: State, g: GrantId, code: int): State {
    if g !in s.exec.units || s.exec.units[g].exit.Some? then s
    else s.(exec := s.exec.(units := s.exec.units[g := s.exec.units[g].(exit := Some(code))]))
  }

  predicate ExitBound(s: State, g: GrantId) {
    && g in s.exec.starts && g in s.auth.grants && g in s.exec.resources && g in s.exec.units
    && s.exec.units[g].exit.Some? && s.exec.units[g].claim == s.exec.resources[g].claim
  }

  predicate RemoteBusy(s: State, g: GrantId) {
    exists r :: r in s.remote.queue.actions && s.remote.queue.actions[r].grant == g && Remote.Unsettled(s.remote, r)
  }

  // `inspect_settlement`: its cancellation of queued actions commits whatever it reports.
  function Inspected(s: State, g: GrantId, at: int): State {
    if !ExitBound(s, g) then s else s.(remote := Remote.CancelUnstarted(s.remote, g, at))
  }

  predicate Settles(s: State, g: GrantId, boardOk: bool, at: int) {
    ExitBound(s, g) && !RemoteBusy(Inspected(s, g, at), g) && boardOk
  }

  function SetSettled(s: State, g: GrantId): State
    requires g in s.exec.resources
  {
    s.(exec := s.exec.(resources := s.exec.resources[g := s.exec.resources[g].(settled := true)]))
  }

  // One iteration of `finish_observed`.
  function FinishObserved(s: State, request: string, g: GrantId, boardOk: bool, at: int): State {
    if !Unfinished(s.slot, request) || g !in s.exec.units || s.exec.units[g].claim != request
        || s.exec.units[g].exit.None? then s
    else if !Settles(s, g, boardOk, at) then Inspected(s, g, at)
    else SetLaunch(SetSettled(Inspected(s, g, at), g), request, s.slot.launches[request].(state := Finished))
  }

  // `reconcile`: resource settlement, then the separate job outcome.
  function Reconcile(s: State, g: GrantId, boardOk: bool, contextOk: bool, outcome: JobState, at: int): State {
    if g !in s.exec.units || s.exec.units[g].exit.None? || g !in s.auth.grants || g.job !in s.tasks.jobs then s
    else if !Settles(s, g, boardOk, at) then Inspected(s, g, at)
    else
      var t := SetSettled(Inspected(s, g, at), g);
      var j := s.tasks.jobs[g.job];
      var r := s.auth.grants[g];
      if j.attempt != g.attempt || j.round != r.round || j.input != r.input || !CaseAllows(s, j) || !contextOk
         || !j.state.Running? || j.owner != Some(r.owner) || !(outcome.Failed? || outcome.Waiting?
             || outcome.Succeeded?)
      then t
      else SetJob(t, g.job, j.(state := outcome, owner := None, lease := None, error := OtherError))
  }

  // One iteration of `reclaim_unstarted_launches`.
  function Reclaim(s: State, request: string, now: int): State {
    if !Unfinished(s.slot, request) || s.slot.launches[request].job !in s.tasks.jobs then s
    else
      var job := s.slot.launches[request].job;
      var j := s.tasks.jobs[job];
      if !j.state.Running? || j.lease.None? || j.lease.value >= now || Id(job, j.attempt) in s.exec.starts then s
      else
        SetLaunch(SetJob(s, job, j.(state := Queued, owner := None, lease := None)),
                  request, s.slot.launches[request].(state := Finished))
  }

  predicate Recoverable(s: State, job: string, valid: bool) {
    job in s.tasks.jobs && valid &&
    var j := s.tasks.jobs[job];
    && j.state.Waiting? && (j.error.InputInvalid? || j.error.BudgetBlocked?) && CaseAllows(s, j) && j.owner.None?
        && j.lease.None?
    && (j.error.BudgetBlocked? ==> Id(job, j.attempt) !in s.exec.starts)
  }

  // Only a budget denial without a start may release its exact dispatch intent.
  function Released(s: State, job: string): map<string, Launch>
    requires job in s.tasks.jobs
  {
    var g := Id(job, s.tasks.jobs[job].attempt);
    map q | q in s.slot.launches ::
      if s.tasks.jobs[job].error.BudgetBlocked? && g !in s.exec.starts && ClaimNames(s.auth, q, g)
      then s.slot.launches[q].(state := Finished) else s.slot.launches[q]
  }

  function Recover(s: State, job: string, valid: bool): State {
    if !Recoverable(s, job, valid) then s
    else SetJob(s, job, s.tasks.jobs[job].(state := Queued, error := NoError)).(slot :=
         s.slot.(launches := Released(s, job)))
  }

  // ---- other components ---------------------------------------------------------------------------------

  function NewJob(s: State, job: string, caseId: string, round: nat, input: string): State {
    if job in s.tasks.jobs then s
    else SetJob(s, job, Job(Queued, 0, None, None, input, round, caseId, NoError))
  }

  // Operator stop, Case lifecycle, stale-lease recovery: any move to a state other than running.
  function MoveJob(s: State, job: string, state: JobState): State {
    if job !in s.tasks.jobs || state.Running? then s
    else SetJob(s, job, s.tasks.jobs[job].(state := state, owner := None, lease := None, error := OtherError))
  }

  function Revoke(s: State, g: GrantId): State {
    if g !in s.auth.grants then s
    else s.(auth := s.auth.(grants := s.auth.grants[g := s.auth.grants[g].(revoked := true)]))
  }

  // ---- remote actions of a grant ----------------------------------------------------------------------------

  // `planOk` covers the input and the plan built from it.
  datatype RemoteReads = RemoteReads(allowed: bool, contract: string, budgetActive: bool, planOk: bool, now: int)

  predicate Admits(s: State, p: Params, r: RemoteReads) {
    r.allowed && BoundTask(s, p, r.now) && RunningValid(s, Id(p.job, p.attempt), r.contract, r.budgetActive)
  }

  // A repeated submission is answered before its plan is built again.
  predicate AdmitsSubmission(s: State, p: Params, request: string, r: RemoteReads) {
    Admits(s, p, r) && (r.planOk || request in s.remote.queue.actions)
  }

  // `planOk` stands here for the Case state, the session and the board lease.
  function SubmitBoardAction(s: State, p: Params, request: string, digest: string, r: RemoteReads): State {
    var g := Id(p.job, p.attempt);
    if !Admits(s, p, r) || !r.planOk || request in s.replies.board then s
    else if exists q :: q in s.replies.board && s.replies.board[q].grant == g && s.replies.board[q].open then s
    else s.(replies := s.replies.(board := s.replies.board[request := BoardAction(g, digest, true)]))
  }

  // The board consumer and its cleanup move an operation between open and settled states.
  function MoveBoard(s: State, request: string, open: bool): State {
    if request !in s.replies.board then s
    else s.(replies := s.replies.(board := s.replies.board[request := s.replies.board[request].(open := open)]))
  }

  // `_live`: the task behind an action is still the one its grant was issued for.
  predicate Live(s: State, g: GrantId, r: RemoteReads) {
    r.allowed && r.planOk && g in s.auth.grants && g.job in s.tasks.jobs &&
    var row := s.auth.grants[g];
    && BoundTask(s, Params(row.token, g.job, g.attempt, s.tasks.jobs[g.job].caseId, row.round, row.input), r.now)
    && RunningValid(s, g, r.contract, r.budgetActive)
  }

  predicate ActionLive(s: State, request: string, r: RemoteReads) {
    request in s.remote.queue.actions && Live(s, s.remote.queue.actions[request].grant, r)
  }

  predicate ExitSeen(s: State, request: string) {
    request in s.remote.queue.actions &&
    var g := s.remote.queue.actions[request].grant;
    g in s.exec.units && s.exec.units[g].exit.Some?
  }

  // ---- interleavings -------------------------------------------------------------------------------------------

  datatype Event =
    | DispatchOne(request: string, job: string, contract: string, allowed: bool, selectable: bool)
    | AnswerLaunch(request: string, accepted: bool)
    | ParkInvalid(job: string)
    | CheckClaimOf(request: string)
    | ClaimTask(claim: ClaimRequest, claimReads: ClaimReads)
    | StartTask(params: Params, request: string, found: string, startReads: StartReads)
    | RenewTask(params: Params, request: string, digest: string, renewReads: RenewReads)
    | BlockTask(params: Params, now: int)
    | ReportTask(params: Params, request: string, digest: string, report: string, valid: bool, now: int)
    | SubmitBoard(params: Params, request: string, digest: string, remoteReads: RemoteReads)
    | BoardMoves(request: string, open: bool)
    | ObserveUnit(grant: GrantId, found: string, invocation: string)
    | ObserveExit(grant: GrantId, code: int)
    | FinishLaunch(request: string, grant: GrantId, boardOk: bool, at: int)
    | ReconcileGrant(grant: GrantId, boardOk: bool, contextOk: bool, outcome: JobState, at: int)
    | ReclaimLaunch(request: string, now: int)
    | RecoverJob(job: string, valid: bool)
    | AddJob(job: string, caseId: string, round: nat, input: string)
    | MoveJobTo(job: string, state: JobState)
    | ChangeCase(caseId: string, row: CaseRow)
    | RevokeGrant(grant: GrantId)
    | SubmitRemote(params: Params, request: string, digest: string, plan: string, remoteReads: RemoteReads, at: int)
    | StartRemote(request: string, remoteReads: RemoteReads, at: int)
    | CheckRemote(request: string, remoteReads: RemoteReads)
    | SendRemote(request: string)
    | ResultRemote(request: string, remoteReads: RemoteReads, code: int, wellFormed: bool, at: int)
    | CleanupRemote(request: string, observation: string, context: string, confirmed: bool)
    | OtherRemote(event: Remote.Event)

  // Runner and observation steps that consult nothing but the queue itself.
  predicate QueueOnly(e: Remote.Event) {
    e.AbortRun? || e.FaultRun? || e.CloseRun? || e.ObserveStart? || e.ObserveEnd?
  }

  // The queue event a broker event amounts to, with what the broker decides filled in.
  function RemoteEvent(s: State, e: Event): Option<Remote.Event> {
    match e
    case SubmitRemote(p, q, digest, plan, r,
        at) => Some(Remote.SubmitAction(q, Id(p.job, p.attempt), digest, plan, AdmitsSubmission(s, p, q, r), at))
    case StartRemote(q, r, at) => Some(Remote.StartRun(q, ActionLive(s, q, r), at))
    case CheckRemote(q, r) => Some(Remote.CheckRun(q, ActionLive(s, q, r)))
    case SendRemote(q) => Some(Remote.RunCommand(q))
    case ResultRemote(q, r, code, ok, at) => Some(Remote.RecordResult(q, ActionLive(s, q, r), code, ok, at))
    case CleanupRemote(q, o, c, confirmed) => Some(Remote.ConfirmCleanup(q, o, c, ExitSeen(s, q), confirmed))
    case OtherRemote(x) => if QueueOnly(x) then Some(x) else None
    case _ => None
  }

  function Apply(s: State, e: Event): State {
    match e
    case DispatchOne(q, job, contract, allowed, ok) => Dispatch(s, q, job, contract, allowed, ok)
    case AnswerLaunch(q, accepted) => LaunchAnswer(s, q, accepted)
    case ParkInvalid(job) => Park(s, job)
    case CheckClaimOf(q) => CheckClaim(s, q)
    case ClaimTask(c, r) => Claim(s, c, r)
    case StartTask(p, q, claim, r) => Authorize(s, p, q, claim, r)
    case RenewTask(p, q, digest, r) => Renew(s, p, q, digest, r)
    case BlockTask(p, now) => BlockUnstarted(s, p, now)
    case ReportTask(p, q, digest, report, valid, now) => Report(s, p, q, digest, report, valid, now)
    case SubmitBoard(p, q, digest, r) => SubmitBoardAction(s, p, q, digest, r)
    case BoardMoves(q, open) => MoveBoard(s, q, open)
    case ObserveUnit(g, claim, invocation) => RegisterUnit(s, g, claim, invocation)
    case ObserveExit(g, code) => RecordExit(s, g, code)
    case FinishLaunch(q, g, boardOk, at) => FinishObserved(s, q, g, boardOk, at)
    case ReconcileGrant(g, boardOk, contextOk, outcome, at) => Reconcile(s, g, boardOk, contextOk, outcome, at)
    case ReclaimLaunch(q, now) => Reclaim(s, q, now)
    case RecoverJob(job, valid) => Recover(s, job, valid)
    case AddJob(job, caseId, round, input) => NewJob(s, job, caseId, round, input)
    case MoveJobTo(job, state) => MoveJob(s, job, state)
    case ChangeCase(c, row) => s.(tasks := s.tasks.(cases := s.tasks.cases[c := row]))
    case RevokeGrant(g) => Revoke(s, g)
    case _ =>
      var x := RemoteEvent(s, e);
      if x.Some? then s.(remote := Remote.Apply(s.remote, x.value)) else s
  }

  function Run(es: seq<Event>): State {
    if es == [] then Init() else Apply(Run(es[..|es| - 1]), es[|es| - 1])
  }
}
