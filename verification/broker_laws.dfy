/**
 What each transaction of the broker does and when, in terms of rows, clocks and what the caller
 presents alone.
 */
module BrokerLaws {
  import opened Options
  import opened Broker
  import Invariants = BrokerInvariants
  import Theorems = BrokerTheorems
  import Remote = RemoteQueue
  import RemoteLaws

  // ---- what the rows say ----------------------------------------------------------------------------

  // The Case of the job takes work, and is in the job's round.
  predicate CaseOpen(s: State, j: Job) {
    j.caseId in s.tasks.cases && s.tasks.cases[j.caseId] == CaseRow(true, j.round)
  }

  // The token is that of the grant, and grant, job, Case and caller agree at this instant.
  predicate Bound(s: State, p: Params, now: int) {
    var g := Id(p.job, p.attempt);
    && g in s.auth.grants && p.job in s.tasks.jobs
    && var r, j := s.auth.grants[g], s.tasks.jobs[p.job];
       && p == Params(r.token, p.job, j.attempt, j.caseId, j.round, j.input)
       && j.state == Running && j.owner == Some(r.owner) && j.round == r.round && j.input == r.input && CaseOpen(s, j)
       && !r.revoked && r.created <= now < r.expires && j.lease.Some? && now < j.lease.value
  }

  // The execution was started under this contract and is neither settled, released nor exited.
  predicate Executing(s: State, g: GrantId, contract: string, budgetActive: bool) {
    && g in s.exec.starts && s.exec.starts[g].contract == contract && budgetActive
    && (g in s.exec.resources ==>
          !s.exec.resources[g].settled &&
          (s.exec.resources[g].claim in s.slot.launches ==>
              s.slot.launches[s.exec.resources[g].claim].state != Finished))
    && (g in s.exec.units ==> s.exec.units[g].exit == None)
  }

  lemma BoundIs(s: State, p: Params, now: int)
    ensures BoundTask(s, p, now) <==> Bound(s, p, now)
  {}

  lemma ExecutingIs(s: State, g: GrantId, contract: string, budgetActive: bool)
    ensures RunningValid(s, g, contract, budgetActive) <==> Executing(s, g, contract, budgetActive)
  {}

  function WithJob(s: State, job: string, j: Job): State {
    s.(tasks := s.tasks.(jobs := s.tasks.jobs[job := j]))
  }

  function WithLaunch(s: State, q: string, l: Launch): State {
    s.(slot := s.slot.(launches := s.slot.launches[q := l]))
  }

  predicate OpenLaunch(s: State, q: string) { q in s.slot.launches && s.slot.launches[q].state != Finished }

  // ---- dispatch -------------------------------------------------------------------------------------

  /** A launch is created if and only if dispatch is allowed, no launch is open, every running job has
      settled resources, and the chosen job is queued, selectable and its Case open. It binds exactly that
      job, its input and the contract. */
  lemma DispatchesIff(s: State, q: string, job: string, contract: string, allowed: bool, selectable: bool)
    requires q !in s.slot.launches
    ensures var free := (forall p | p in s.slot.launches :: !OpenLaunch(s, p)) &&
                        forall j | j in s.tasks.jobs && s.tasks.jobs[j].state == Running ::
                          Id(j, s.tasks.jobs[j].attempt) in s.exec.resources
                              && s.exec.resources[Id(j, s.tasks.jobs[j].attempt)].settled;
            Apply(s, DispatchOne(q, job, contract, allowed, selectable)) ==
              if allowed && free && job in s.tasks.jobs && s.tasks.jobs[job].state == Queued
                  && CaseOpen(s, s.tasks.jobs[job]) && selectable
              then WithLaunch(s, q, Launch(Launching, job, s.tasks.jobs[job].input, contract)) else s
  {
    if p :| p in s.slot.launches && Unfinished(s.slot, p) { assert OpenLaunch(s, p); }
    if p :| p in s.slot.launches && OpenLaunch(s, p) { assert Unfinished(s.slot, p); }
    assert forall j | j in s.tasks.jobs :: RunsUnsettled(s, j) <==>
      s.tasks.jobs[j].state == Running &&
      !(Id(j, s.tasks.jobs[j].attempt) in s.exec.resources && s.exec.resources[Id(j, s.tasks.jobs[j].attempt)].settled);
    hide RunsUnsettled;
  }

  /** The answer of the launcher is recorded on a launching row only, and an invalid queued job is parked
      without an attempt. */
  lemma AnswersAndParks(s: State, q: string, accepted: bool, job: string)
    ensures Apply(s, AnswerLaunch(q, accepted)) ==
              if q in s.slot.launches && s.slot.launches[q].state == Launching
              then WithLaunch(s, q, s.slot.launches[q].(state := if accepted then Accepted else Unresolved)) else s
    ensures Apply(s, ParkInvalid(job)) ==
              if job in s.tasks.jobs && s.tasks.jobs[job].state == Queued
              then WithJob(s, job, s.tasks.jobs[job].(state := Waiting, error := InputInvalid, owner := None,
                   lease := None)) else s
  {}

  // ---- claim ------------------------------------------------------------------------------------------

  /** A claim may proceed only for the one open launch. */
  lemma ChecksIff(s: State, q: string)
    ensures Apply(s, CheckClaimOf(q)) ==
              if OpenLaunch(s, q) && (forall p | OpenLaunch(s, p) :: p == q)
              then s.(slot := s.slot.(checked := s.slot.checked + {q})) else s
  {
    if p :| p in s.slot.launches && p != q && Unfinished(s.slot, p) { assert OpenLaunch(s, p); }
    if p :| OpenLaunch(s, p) && p != q { assert Unfinished(s.slot, p); }
  }

  // The claim was checked against its launch, and contract and input are still those it was bound to.
  predicate ClaimStands(s: State, c: ClaimRequest, r: ClaimReads) {
    && c.request in s.slot.checked && c.request in s.slot.launches && r.allowed
    && var l := s.slot.launches[c.request];
       l.contract == r.contract && l.job in s.tasks.jobs && s.tasks.jobs[l.job].input == l.input
  }

  // What a first claim is answered with.
  datatype FirstClaim = Refused | Nothing | Parked | Given

  function Fate(s: State, c: ClaimRequest, r: ClaimReads): FirstClaim {
    if !ClaimStands(s, c, r) then Refused
    else
      var job := s.slot.launches[c.request].job;
      var j := s.tasks.jobs[job];
      if j.state != Queued || !CaseOpen(s, j) || !r.selectable then Nothing
      else if !r.inputOk then Parked
      else if Id(job, j.attempt + 1) in s.auth.grants then Refused
      else Given
  }

  /** A first claim: refused without effect unless it stands; an empty receipt when the bound job is not
      there to take; the job parked when its input is invalid; otherwise the next attempt of the bound job
      under a new grant, leased for 120 seconds to the caller, with the token of this very request. */
  lemma ClaimsExactly(s: State, c: ClaimRequest, r: ClaimReads)
    requires c.request !in s.auth.receipts
    ensures var answer, t, fate := ClaimReply(s, c, r), Apply(s, ClaimTask(c, r)), Fate(s, c, r);
            match fate
            case Refused => answer == ClaimRejected && t == s
            case Nothing => answer == NoTask && t == s.(auth := Receipted(s, c, None))
            case Parked =>
              var job := s.slot.launches[c.request].job;
              answer == NoTask &&
              t == WithJob(s, job, s.tasks.jobs[job].(state := Waiting, error := InputInvalid, owner := None,
                  lease := None))
                     .(auth := Receipted(s, c, None))
            case Given =>
              var job := s.slot.launches[c.request].job;
              var j := s.tasks.jobs[job];
              var task := Task(job, j.attempt + 1, j.caseId, j.round, j.input);
              var token := Token(c.request, c.digest, c.key);
              answer == Assigned(task, token) &&
              t == WithJob(s, job, j.(state := Running, attempt := j.attempt + 1, owner := Some(r.owner),
                  lease := Some(r.now + 120)))
                     .(auth := Receipted(s, c, Some(task)).(grants :=
                         s.auth.grants[Id(job, j.attempt + 1) := Grant(token, j.round, j.input, r.owner, r.now,
                             r.now + 120, false)]))
  {
    var stands := ClaimStands(s, c, r);
    assert stands <==> ClaimOpen(s, c, r);
    hide BoundTask;
  }

  /** The conditions under which replays are answered, spelled out. */
  lemma ReplayConditions(s: State, c: ClaimRequest, r: ClaimReads, p: Params, renew: RenewReads)
    ensures ClaimOpen(s, c, r) <==> ClaimStands(s, c, r)
    ensures var g := Id(p.job, p.attempt);
            RenewOpen(s, p, renew) <==>
              renew.allowed && Bound(s, p, renew.now) && (g in s.exec.starts ==>
                  Executing(s, g, renew.contract, renew.budgetActive))
    ensures Verified(s, p, renew.now) <==>
              Id(p.job, p.attempt) in s.auth.grants &&
              var a := s.auth.grants[Id(p.job, p.attempt)];
              a.token == p.token && !a.revoked && a.created <= renew.now < a.expires
  {
    BoundIs(s, p, renew.now);
    ExecutingIs(s, Id(p.job, p.attempt), renew.contract, renew.budgetActive);
    hide BoundTask, Bound, RunningValid, Executing;
  }

  function Receipted(s: State, c: ClaimRequest, task: Option<Task>): Auth {
    s.auth.(receipts := s.auth.receipts[c.request := ClaimReceipt(c.digest, c.key, task)])
  }

  // ---- start, renewal, block, report, submission ----------------------------------------------------------

  // The receipt is the only one that names this attempt, and names it as the caller does.
  predicate OwnReceipt(s: State, p: Params, claim: string) {
    && claim in s.auth.receipts && s.auth.receipts[claim].task.Some?
    && (var t := s.auth.receipts[claim].task.value;
        t.job == p.job && t.attempt == p.attempt && t.round == p.round && t.input == p.input)
    && forall q | q in s.auth.receipts && s.auth.receipts[q].task.Some? && s.auth.receipts[q].task.value.job == p.job &&
                  s.auth.receipts[q].task.value.attempt == p.attempt :: q == claim
  }

  /** A start is authorized if and only if execution is allowed, the task is bound, input and budget agree,
      neither the attempt nor the request was used for a start, and its one receipt has no resources yet.
      Start row and captured resources appear together, and nothing else changes. */
  lemma StartsIff(s: State, p: Params, request: string, claim: string, r: StartReads)
    ensures var g := Id(p.job, p.attempt);
            var ok := && r.allowed && r.inputOk && r.budgetOk && Bound(s, p, r.now) && g !in s.exec.starts
                      && (forall h | h in s.exec.starts :: s.exec.starts[h].request != request)
                          && OwnReceipt(s, p, claim)
                      && (forall h | h in s.exec.resources :: s.exec.resources[h].claim != claim);
            Apply(s, StartTask(p, request, claim, r)) ==
              (if ok then s.(exec := Exec(s.exec.starts[g := Start(request, r.now, r.contract)],
                                          s.exec.resources[g := Resource(claim, false)], s.exec.units))
               else s)
            && (StartAllowed(s, p, request, claim, r) <==> ok)
  {
    BoundIs(s, p, r.now);
    hide BoundTask, Bound;
  }

  // The end of the lease after a renewal: unmoved before the start, and within the lifetime after it.
  function RenewedTo(s: State, p: Params, now: int): Option<int>
    requires p.job in s.tasks.jobs
  {
    var g := Id(p.job, p.attempt);
    if g !in s.exec.starts then s.tasks.jobs[p.job].lease
    else
      var began := s.exec.starts[g].at;
      if now < began || now >= began + 7200 then None
      else if now + 120 <= began + 7200 then Some(now + 120)
      else Some(began + 7200)
  }

  /** A first renewal takes effect if and only if execution is allowed, the task is bound, a started
      execution is still executing and within its lifetime. It moves exactly the job's lease and the
      grant's expiry and stores the answer. */
  lemma RenewsIff(s: State, p: Params, request: string, digest: string, r: RenewReads)
    requires request !in s.replies.stored
    ensures var g := Id(p.job, p.attempt);
        var t, answer := Apply(s, RenewTask(p, request, digest, r)), RenewReply(s, p, request, digest, r);
            if !(r.allowed && Bound(s, p, r.now) && (g in s.exec.starts ==> Executing(s, g, r.contract, r.budgetActive))
                 && RenewedTo(s, p, r.now).Some?)
            then t == s && answer == RenewRejected
            else
              var lease := RenewedTo(s, p, r.now).value;
              var expires := if lease <= r.now + 300 then lease else r.now + 300;
              && answer == Renewed(expires)
              && t == WithJob(s, p.job, s.tasks.jobs[p.job].(lease := Some(lease)))
                        .(auth := s.auth.(grants := s.auth.grants[g := s.auth.grants[g].(expires := expires)]),
                          replies := Answered(s, request, Reply(digest, g, Some(expires))))
  {
    var g := Id(p.job, p.attempt);
    BoundIs(s, p, r.now);
    ExecutingIs(s, g, r.contract, r.budgetActive);
    assert Bound(s, p, r.now) ==> p.job in s.tasks.jobs && s.tasks.jobs[p.job].lease.Some? && g in s.auth.grants;
    hide BoundTask, Bound, RunningValid, Executing;
  }

  function Answered(s: State, request: string, row: Reply): Replies {
    s.replies.(stored := s.replies.stored[request := row], effects := s.replies.effects + [request])
  }

  /** A budget denial parks exactly a bound task that was not started. */
  lemma BlocksIff(s: State, p: Params, now: int)
    ensures Apply(s, BlockTask(p, now)) ==
              if Bound(s, p, now) && Id(p.job, p.attempt) !in s.exec.starts
              then WithJob(s, p.job, s.tasks.jobs[p.job].(state := Waiting, error := BudgetBlocked, owner := None,
                   lease := None)) else s
  {
    BoundIs(s, p, now);
  }

  /** A first report is stored if and only if the task is bound, the report is valid and the attempt has no
      other report. */
  lemma ReportsIff(s: State, p: Params, request: string, digest: string, report: string, valid: bool, now: int)
    requires request !in s.replies.stored
    ensures var g := Id(p.job, p.attempt);
            Apply(s, ReportTask(p, request, digest, report, valid, now)) ==
              if Bound(s, p, now) && valid && (g in s.replies.reports ==> s.replies.reports[g] == report)
              then s.(replies := Answered(s, request, Reply(digest, g,
                   None)).(reports := s.replies.reports[g := report])) else s
    ensures ReportReply(s, p, request, digest, report, valid, now) ==
              if Bound(s, p, now) && valid && (Id(p.job, p.attempt) in s.replies.reports ==>
                  s.replies.reports[Id(p.job, p.attempt)] == report)
              then ReportAccepted else ReportRejected
  {
    BoundIs(s, p, now);
  }

  /** A remote submission reaches the queue as admitted if and only if execution is allowed, the task is
      bound and executing, and its plan is good or was built before; it names exactly the caller's grant. */
  lemma SubmitsIff(s: State, p: Params, q: string, digest: string, plan: string, r: RemoteReads, at: int)
    ensures var g := Id(p.job, p.attempt);
            var admitted := && r.allowed && Bound(s, p, r.now) && Executing(s, g, r.contract, r.budgetActive)
                            && (r.planOk || q in s.remote.queue.actions);
            Apply(s, SubmitRemote(p, q, digest, plan, r, at)) ==
              s.(remote := Remote.Apply(s.remote, Remote.SubmitAction(q, g, digest, plan, admitted, at)))
  {
    BoundIs(s, p, r.now);
    ExecutingIs(s, Id(p.job, p.attempt), r.contract, r.budgetActive);
    hide BoundTask, Bound, RunningValid, Executing, Remote.Apply;
  }

  // The task behind an action, as its grant was issued.
  predicate TaskLive(s: State, request: string, r: RemoteReads) {
    && request in s.remote.queue.actions && r.allowed && r.planOk
    && var g := s.remote.queue.actions[request].grant;
       && g in s.auth.grants && g.job in s.tasks.jobs && Executing(s, g, r.contract, r.budgetActive)
       && Bound(s, Params(s.auth.grants[g].token, g.job, g.attempt, s.tasks.jobs[g.job].caseId, s.auth.grants[g].round,
           s.auth.grants[g].input), r.now)
  }

  lemma LiveIs(s: State, request: string, r: RemoteReads)
    ensures ActionLive(s, request, r) <==> TaskLive(s, request, r)
  {
    hide CaseAllows, CaseOpen, BoundTask, Bound, RunningValid, Executing;
    if request in s.remote.queue.actions {
      var g := s.remote.queue.actions[request].grant;
      if g in s.auth.grants && g.job in s.tasks.jobs {
        var a, j := s.auth.grants[g], s.tasks.jobs[g.job];
        BoundIs(s, Params(a.token, g.job, g.attempt, j.caseId, a.round, a.input), r.now);
        ExecutingIs(s, g, r.contract, r.budgetActive);
      }
    }
  }

  /** The runner's decisions: an action starts, passes its check and records its result as live exactly
      while the task behind it is; the send itself reads nothing. */
  lemma RunnerDecides(s: State, q: string, r: RemoteReads, code: int, ok: bool, at: int)
    ensures var live := TaskLive(s, q, r);
            && Apply(s, StartRemote(q, r, at)) == Queueing(s, Remote.StartRun(q, live, at))
            && Apply(s, CheckRemote(q, r)) == Queueing(s, Remote.CheckRun(q, live))
            && Apply(s, SendRemote(q)) == Queueing(s, Remote.RunCommand(q))
            && Apply(s, ResultRemote(q, r, code, ok, at)) == Queueing(s, Remote.RecordResult(q, live, code, ok, at))
  {
    LiveIs(s, q, r);
    hide TaskLive, ActionLive, Remote.Apply;
  }

  function Queueing(s: State, e: Remote.Event): State { s.(remote := Remote.Apply(s.remote, e)) }

  /** A cleanup is offered to the queue with the observed exit of the action's own worker as evidence. */
  lemma CleanupDecides(s: State, q: string, o: string, context: string, confirmed: bool)
    ensures var exited := q in s.remote.queue.actions && s.remote.queue.actions[q].grant in s.exec.units
                          && s.exec.units[s.remote.queue.actions[q].grant].exit.Some?;
            Apply(s, CleanupRemote(q, o, context, confirmed)) == Queueing(s,
                Remote.ConfirmCleanup(q, o, context, exited, confirmed))
  {
    hide Remote.Apply;
  }

  /** A board operation is queued if and only if execution is allowed, the task is bound and executing, the
      board conditions hold, the request is new and the grant has no open board operation. */
  lemma SubmitsBoardIff(s: State, p: Params, q: string, digest: string, r: RemoteReads)
    ensures var g := Id(p.job, p.attempt);
            var ok := && r.allowed && r.planOk && Bound(s, p, r.now) && Executing(s, g, r.contract, r.budgetActive)
                      && q !in s.replies.board
                      && forall k | k in s.replies.board && s.replies.board[k].grant == g :: !s.replies.board[k].open;
            Apply(s, SubmitBoard(p, q, digest, r)) ==
              if ok then s.(replies := s.replies.(board := s.replies.board[q := BoardAction(g, digest, true)])) else s
  {
    BoundIs(s, p, r.now);
    ExecutingIs(s, Id(p.job, p.attempt), r.contract, r.budgetActive);
    hide BoundTask, Bound, RunningValid, Executing;
  }

  // ---- observation and settlement -----------------------------------------------------------------------

  /** An instance is recorded once per started grant, under its own receipt and a name not used before; its
      exit is recorded once. */
  lemma ObservesExactly(s: State, g: GrantId, claim: string, invocation: string, code: int)
    ensures var own := && g in s.exec.starts && g in s.auth.grants && g !in s.exec.units
                       && claim in s.auth.receipts && s.auth.receipts[claim].task.Some?
                       && (var t := s.auth.receipts[claim].task.value;
                           && t.job == g.job && t.attempt == g.attempt
                           && t.round == s.auth.grants[g].round && t.input == s.auth.grants[g].input)
                       && forall h | h in s.exec.units ::
                           s.exec.units[h].claim != claim && s.exec.units[h].invocation != invocation;
            Apply(s, ObserveUnit(g, claim, invocation)) ==
              if own then s.(exec := s.exec.(units := s.exec.units[g := Unit(claim, invocation, None)])) else s
    ensures Apply(s, ObserveExit(g, code)) ==
              if g in s.exec.units && s.exec.units[g].exit == None
              then s.(exec := s.exec.(units := s.exec.units[g := s.exec.units[g].(exit := Some(code))])) else s
  {}

  // The worker of the grant was seen to exit, under the receipt its resources were captured with.
  predicate Exited(s: State, g: GrantId) {
    && g in s.exec.starts && g in s.auth.grants && g in s.exec.resources && g in s.exec.units
    && s.exec.units[g].exit.Some? && s.exec.units[g].claim == s.exec.resources[g].claim
  }

  // The resources may be released: nothing of the grant is unresolved and the board agrees.
  predicate Releasable(s: State, g: GrantId, boardOk: bool) {
    && Exited(s, g) && boardOk
    && forall r | r in s.remote.queue.actions && s.remote.queue.actions[r].grant == g ::
        !RemoteLaws.Unresolved(s.remote, r)
  }

  // The queued actions of the grant are cancelled.
  function Quieted(s: State, g: GrantId, at: int): State {
    if Exited(s, g) then s.(remote := Remote.Apply(s.remote, Remote.CancelGrant(g, at))) else s
  }

  function Released(s: State, g: GrantId, at: int): State
    requires g in s.exec.resources
  {
    Quieted(s, g, at).(exec := s.exec.(resources := s.exec.resources[g := s.exec.resources[g].(settled := true)]))
  }

  // Cancelling queued actions changes nothing about what is unresolved.
  lemma CancelSpares(s: Remote.State, g: GrantId, at: int, r: string)
    requires Remote.Inv(s) && r in s.queue.actions
    ensures var t := Remote.CancelUnstarted(s, g, at);
            && r in t.queue.actions && t.queue.actions[r].grant == s.queue.actions[r].grant
            && (Remote.Unsettled(t, r) <==> RemoteLaws.Unresolved(s, r))
  {
    Remote.CancelKeeps(s, g, at);
    Remote.UnsettledIsLoose(Remote.CancelUnstarted(s, g, at), r);
    hide Remote.Unsettled, Remote.Inv;
  }

  lemma BusyIs(s: State, g: GrantId, at: int)
    requires Remote.Inv(s.remote) && ExitBound(s, g)
    ensures RemoteBusy(Inspected(s, g, at), g) <==>
              exists r :: r in s.remote.queue.actions && s.remote.queue.actions[r].grant == g
                          && RemoteLaws.Unresolved(s.remote, r)
  {
    var t := Inspected(s, g, at);
    assert t.remote == Remote.CancelUnstarted(s.remote, g, at) && t.remote.queue.actions.Keys ==
        s.remote.queue.actions.Keys;
    hide ExitBound, Inspected, Remote.Unsettled, RemoteLaws.Unresolved, Remote.Inv, Remote.CancelUnstarted;
    forall r | r in s.remote.queue.actions
      ensures t.remote.queue.actions[r].grant == s.remote.queue.actions[r].grant
      ensures Remote.Unsettled(t.remote, r) <==> RemoteLaws.Unresolved(s.remote, r)
    {
      CancelSpares(s.remote, g, at, r);
    }
    if r :| r in s.remote.queue.actions && s.remote.queue.actions[r].grant == g && RemoteLaws.Unresolved(s.remote, r) {
      assert r in t.remote.queue.actions && Remote.Unsettled(t.remote, r);
    }
  }

  lemma SettlesIff(es: seq<Event>, g: GrantId, boardOk: bool, at: int)
    ensures Settles(Run(es), g, boardOk, at) <==> Releasable(Run(es), g, boardOk)
    ensures Inspected(Run(es), g, at) == Quieted(Run(es), g, at)
  {
    hide Run, Invariants.Inv, Remote.Inv, RemoteBusy, RemoteLaws.Unresolved, Remote.CancelUnstarted;
    var s := Run(es);
    Invariants.RunKeeps(es);
    Theorems.InvParts(s);
    if ExitBound(s, g) { BusyIs(s, g, at); }
  }

  /** An observed exit finishes the launch if and only if the resources can be released: no action of the
      grant is unresolved and the board agrees. Then resources and launch finish together. In any case the
      queued actions of an exited worker are cancelled. */
  lemma FinishesIff(es: seq<Event>, q: string, g: GrantId, boardOk: bool, at: int)
    ensures var s, t := Run(es), Run(es + [FinishLaunch(q, g, boardOk, at)]);
            if !(OpenLaunch(s, q) && g in s.exec.units && s.exec.units[g].claim == q && s.exec.units[g].exit.Some?)
                then t == s
            else if !Releasable(s, g, boardOk) then t == Quieted(s, g, at)
            else t == WithLaunch(Released(s, g, at), q, s.slot.launches[q].(state := Finished))
  {
    Theorems.RunSnoc(es, FinishLaunch(q, g, boardOk, at));
    SettlesIff(es, g, boardOk, at);
    hide Run, Settles, Releasable, Inspected, Quieted;
    QuietFrame(Run(es), g, at);
  }

  lemma QuietFrame(s: State, g: GrantId, at: int)
    ensures Quieted(s, g, at) == s.(remote := Quieted(s, g, at).remote)
  {}

  // The attempt whose outcome may be recorded: still the running one, under its own grant and round.
  predicate Concludes(s: State, g: GrantId, contextOk: bool, outcome: JobState)
    requires g in s.auth.grants && g.job in s.tasks.jobs
  {
    var j, r := s.tasks.jobs[g.job], s.auth.grants[g];
    && j.attempt == g.attempt && j.round == r.round && j.input == r.input && CaseOpen(s, j) && contextOk
    && j.state == Running && j.owner == Some(r.owner) && outcome in {Failed, Waiting, Succeeded}
  }

  /** Reconciling an observed exit releases the resources exactly when they can be, and only then records
      the outcome: the job of the grant ends in exactly the given outcome if and only if it is still the
      running attempt of an open Case, under its owner, input and round. */
  lemma ReconcilesIff(es: seq<Event>, g: GrantId, boardOk: bool, contextOk: bool, outcome: JobState, at: int)
    ensures var s, t := Run(es), Run(es + [ReconcileGrant(g, boardOk, contextOk, outcome, at)]);
            if !(g in s.exec.units && s.exec.units[g].exit.Some? && g in s.auth.grants && g.job in s.tasks.jobs)
                then t == s
            else if !Releasable(s, g, boardOk) then t == Quieted(s, g, at)
            else if !Concludes(s, g, contextOk, outcome) then t == Released(s, g, at)
            else t == WithJob(Released(s, g, at), g.job,
                              s.tasks.jobs[g.job].(state := outcome, owner := None, lease := None, error := OtherError))
  {
    Theorems.RunSnoc(es, ReconcileGrant(g, boardOk, contextOk, outcome, at));
    SettlesIff(es, g, boardOk, at);
    hide Run, Settles, Releasable, Inspected, Quieted;
    QuietFrame(Run(es), g, at);
  }

  // ---- reclaim and recovery -----------------------------------------------------------------------------------

  // The claim under this launch lapsed before `now` and was never started.
  predicate Lapsed(s: State, q: string, now: int) {
    && OpenLaunch(s, q) && s.slot.launches[q].job in s.tasks.jobs
    && var j := s.tasks.jobs[s.slot.launches[q].job];
       j.state == Running && j.lease.Some? && j.lease.value < now && Id(s.slot.launches[q].job,
           j.attempt) !in s.exec.starts
  }

  /** A launch is reclaimed if and only if it is open, its job is running under a lease that ended strictly
      before now, and that attempt was never started. The job is then queued again with its attempt, input
      and round, the launch is finished, and nothing else changes. */
  lemma ReclaimsIff(s: State, q: string, now: int)
    ensures var t := Apply(s, ReclaimLaunch(q, now));
            && (t != s <==> Lapsed(s, q, now))
            && (Lapsed(s, q, now) ==>
                  var job := s.slot.launches[q].job;
                  t == WithLaunch(WithJob(s, job, s.tasks.jobs[job].(state := Queued, owner := None, lease := None)),
                                  q, s.slot.launches[q].(state := Finished)))
  {}

  /** A claim is safe for its 120 seconds: no reclaim whose clock is at most the claim time plus 120 ends
      the attempt, however often it was renewed and whether it was started. */
  lemma FreshClaimIsNotReclaimed(es: seq<Event>, q: string, now: int, g: GrantId)
    requires g in Run(es).auth.grants && !Invariants.Dead(Run(es).tasks, g)
        && now <= Run(es).auth.grants[g].created + 120
    ensures !Invariants.Dead(Run(es + [ReclaimLaunch(q, now)]).tasks, g)
  {
    var s := Run(es);
    Theorems.RunSnoc(es, ReclaimLaunch(q, now));
    Invariants.RunKeeps(es);
    assert Invariants.LeaseOk(s.tasks, s.auth, s.exec, g);
    hide Run, Invariants.Inv;
    ReclaimsIff(s, q, now);
  }

  // The parked job may be tried again.
  predicate Retryable(s: State, job: string, valid: bool) {
    && job in s.tasks.jobs && valid
    && var j := s.tasks.jobs[job];
       && j.state == Waiting && j.owner == None && j.lease == None && CaseOpen(s, j)
       && (j.error == InputInvalid || (j.error == BudgetBlocked && Id(job, j.attempt) !in s.exec.starts))
  }

  /** A parked job is queued again if and only if its input is valid again, its Case is open and, for a
      budget denial, its attempt was never started. A budget denial then gives up exactly the launch its
      attempt was claimed under, and an invalid input none. */
  lemma RecoversIff(s: State, job: string, valid: bool)
    ensures var t := Apply(s, RecoverJob(job, valid));
            if !Retryable(s, job, valid) then t == s && !Recoverable(s, job, valid)
            else
              var j := s.tasks.jobs[job];
              && Recoverable(s, job, valid)
              && t == WithJob(s, job, j.(state := Queued, error := NoError)).(slot := t.slot)
              && t.slot.checked == s.slot.checked && t.slot.launches.Keys == s.slot.launches.Keys
              && forall q | q in s.slot.launches ::
                   var own := && j.error == BudgetBlocked && q in s.auth.receipts && s.auth.receipts[q].task.Some?
                              && s.auth.receipts[q].task.value.job == job
                                  && s.auth.receipts[q].task.value.attempt == j.attempt;
                   t.slot.launches[q] == if own then s.slot.launches[q].(state := Finished) else s.slot.launches[q]
  {}
}
