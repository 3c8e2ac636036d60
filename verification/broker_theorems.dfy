/** Safety of the broker over every run, in the terms its design documents use. */
module BrokerTheorems {
  import opened Options
  import opened Broker
  import opened BrokerInvariants
  import Remote = RemoteQueue

  lemma RunSnoc(es: seq<Event>, e: Event)
    ensures Run(es + [e]) == Apply(Run(es), e)
  {
    assert (es + [e])[..|es|] == es;
  }

  // ---- which tables an event touches -----------------------------------------------------------------

  lemma AuthFrame(s: State, e: Event)
    requires !e.ClaimTask? && !e.RenewTask? && !e.RevokeGrant?
    ensures Apply(s, e).auth == s.auth
    ensures !e.ReportTask? && !e.SubmitBoard? && !e.BoardMoves? ==> Apply(s, e).replies == s.replies
  {
    hide Unfinished, RunsUnsettled, CaseAllows, BoundTask, ReportReply, Admits, StartAllowed, RunningValid, ClaimReply,
        RenewReply, RenewedLease, Settles,
         Recoverable, Broker.Released, RemoteEvent, Remote.Apply, Remote.CancelUnstarted;
  }

  predicate Observes(e: Event) { e.StartTask? || e.ObserveUnit? || e.ObserveExit? || e.FinishLaunch?
      || e.ReconcileGrant? }

  lemma ExecFrame(s: State, e: Event)
    requires !Observes(e)
    ensures Apply(s, e).exec == s.exec
  {
    hide Unfinished, RunsUnsettled, CaseAllows, BoundTask, ReportReply, Admits, StartAllowed, RunningValid, ClaimReply,
        RenewReply, RenewedLease, Settles,
         Recoverable, Broker.Released, RemoteEvent, Remote.Apply, Remote.CancelUnstarted;
  }

  predicate MovesJobs(e: Event) {
    || e.ParkInvalid? || e.ClaimTask? || e.RenewTask? || e.BlockTask? || e.ReconcileGrant? || e.ReclaimLaunch?
        || e.RecoverJob?
    || e.AddJob? || e.MoveJobTo? || e.ChangeCase?
  }

  lemma TasksFrame(s: State, e: Event)
    requires !MovesJobs(e)
    ensures Apply(s, e).tasks == s.tasks
  {
    hide Unfinished, RunsUnsettled, CaseAllows, BoundTask, ReportReply, Admits, StartAllowed, RunningValid, ClaimReply,
        RenewReply, RenewedLease, Settles,
         Recoverable, Broker.Released, RemoteEvent, Remote.Apply, Remote.CancelUnstarted;
  }

  // ---- one execution at a time ---------------------------------------------------------------------

  /** At most one launch is unfinished in every reachable state. */
  lemma OneUnfinishedLaunch(es: seq<Event>, p: string, q: string)
    requires Unfinished(Run(es).slot, p) && Unfinished(Run(es).slot, q)
    ensures p == q
  {
    RunKeeps(es);
  }

  predicate StartedUnsettled(s: State, g: GrantId) {
    g in s.exec.starts && !Settled(s.exec, g)
  }

  /** A started grant whose resources are not settled still occupies its launch, and is the latest
      attempt of its job. */
  lemma StartedUnsettledHoldsItsLaunch(es: seq<Event>, g: GrantId)
    requires StartedUnsettled(Run(es), g)
    ensures var s := Run(es);
            && g in s.auth.grants && Unfinished(s.slot, s.auth.grants[g].token.request)
            && g.job in s.tasks.jobs && s.tasks.jobs[g.job].attempt == g.attempt
  {
    RunKeeps(es);
    var s := Run(es);
    assert HeldOk(s.slot, s.tasks, s.auth, s.exec, g);
  }

  /** So at most one authorized execution is unsettled. */
  lemma OneUnsettledExecution(es: seq<Event>, g: GrantId, h: GrantId)
    requires StartedUnsettled(Run(es), g) && StartedUnsettled(Run(es), h)
    ensures g == h
  {
    StartedUnsettledHoldsItsLaunch(es, g);
    StartedUnsettledHoldsItsLaunch(es, h);
    RunKeeps(es);
    var s := Run(es);
    ClaimIsInjective(s.slot, s.tasks, s.auth, g, h);
  }

  // A current attempt that is started or not, but not settled, also holds the slot.
  lemma CurrentHoldsItsLaunch(s: State, g: GrantId)
    requires Inv(s) && g in s.auth.grants && !Dead(s.tasks, g) && !Settled(s.exec, g)
    ensures Unfinished(s.slot, ClaimOf(s.auth, g))
  {
    assert HeldOk(s.slot, s.tasks, s.auth, s.exec, g);
  }

  /** Stronger: at most one grant is live at all, whether or not its start was authorized yet. */
  lemma OneLiveGrant(es: seq<Event>, g: GrantId, h: GrantId)
    requires var s := Run(es); g in s.auth.grants && !Dead(s.tasks, g) && !Settled(s.exec, g)
    requires var s := Run(es); h in s.auth.grants && !Dead(s.tasks, h) && !Settled(s.exec, h)
    ensures g == h
  {
    RunKeeps(es);
    var s := Run(es);
    CurrentHoldsItsLaunch(s, g);
    CurrentHoldsItsLaunch(s, h);
    ClaimIsInjective(s.slot, s.tasks, s.auth, g, h);
  }

  // ---- fencing ---------------------------------------------------------------------------------------

  // An attempt number never goes back, and a job runs again only under a later one.
  ghost predicate JobAdvances(tasks: Tasks, next: Tasks, job: string) {
    job in tasks.jobs ==>
      && job in next.jobs && next.jobs[job].attempt >= tasks.jobs[job].attempt
      && (next.jobs[job].state.Running? && next.jobs[job].attempt == tasks.jobs[job].attempt ==>
          tasks.jobs[job].state.Running?)
  }

  lemma AttemptsOnlyGrow(s: State, e: Event, job: string)
    ensures JobAdvances(s.tasks, Apply(s, e).tasks, job)
  {
    hide Unfinished, CaseAllows, BoundTask, Settles, Broker.Released, Recoverable, Remote.CancelUnstarted, Claim, Renew,
        RemoteEvent, Remote.Apply,
         Dispatch, StartAllowed, RegisterUnit;
    if !MovesJobs(e) { TasksFrame(s, e); }
    else if e.ClaimTask? { ClaimFrame(s, e.claim, e.claimReads, job); }
    else if e.RenewTask? { RenewFrame(s, e.params, e.request, e.digest, e.renewReads, job); }
  }

  lemma ClaimFrame(s: State, c: ClaimRequest, r: ClaimReads, job: string)
    ensures JobAdvances(s.tasks, Claim(s, c, r).tasks, job)
  {
    if !ClaimReply(s, c, r).ClaimRejected? && c.request !in s.auth.receipts {
      ClaimEffect(s, c, r);
      hide Claim, ClaimReply;
    }
  }

  lemma RenewFrame(s: State, p: Params, q: string, d: string, r: RenewReads, job: string)
    ensures JobAdvances(s.tasks, Renew(s, p, q, d, r).tasks, job)
  {
    if !RenewReply(s, p, q, d, r).RenewRejected? && q !in s.replies.stored {
      RenewEffect(s, p, q, d, r);
      hide Renew, RenewReply;
    }
  }

  lemma GrantRowStays(s: State, e: Event, g: GrantId)
    requires g in s.auth.grants
    ensures g in Apply(s, e).auth.grants && Apply(s, e).auth.grants[g].token == s.auth.grants[g].token
    ensures Apply(s, e).auth.grants[g].created == s.auth.grants[g].created
  {
    if e.ClaimTask? {
      if Apply(s, e) != s { NewGrantIsNew(s, e.claim, e.claimReads, g); }
    } else if e.RenewTask? {
      if Apply(s, e) != s { RenewEffect(s, e.params, e.request, e.digest, e.renewReads); }
      hide Renew, RenewReply, BoundTask, RenewedLease;
    } else if !e.RevokeGrant? {
      AuthFrame(s, e);
      hide Apply;
    }
  }

  lemma NewGrantIsNew(s: State, c: ClaimRequest, r: ClaimReads, g: GrantId)
    requires Claim(s, c, r) != s && g in s.auth.grants
    ensures g in Claim(s, c, r).auth.grants && Claim(s, c, r).auth.grants[g] == s.auth.grants[g]
  {
    hide BoundTask, CaseAllows;
  }

  lemma SettledStays(s: State, e: Event, g: GrantId)
    requires Captured(s.auth, s.exec) && Settled(s.exec, g)
    ensures Settled(Apply(s, e).exec, g)
  {
    if !Observes(e) {
      ExecFrame(s, e);
    } else {
      assert g in s.exec.starts;
      hide Unfinished, CaseAllows, BoundTask, Settles, ClaimNames, Remote.CancelUnstarted;
    }
  }

  // The attempt is over, or its resources are released.
  predicate Fenced(s: State, g: GrantId) {
    g in s.auth.grants && (Dead(s.tasks, g) || Settled(s.exec, g))
  }

  lemma FencedStep(s: State, e: Event, g: GrantId)
    requires Inv(s) && g in s.auth.grants
    ensures g in Apply(s, e).auth.grants && Apply(s, e).auth.grants[g].token == s.auth.grants[g].token
    ensures Apply(s, e).auth.grants[g].created == s.auth.grants[g].created
    ensures Dead(s.tasks, g) ==> Dead(Apply(s, e).tasks, g)
    ensures Settled(s.exec, g) ==> Settled(Apply(s, e).exec, g)
  {
    AttemptsOnlyGrow(s, e, g.job);
    GrantRowStays(s, e, g);
    if Settled(s.exec, g) { SettledStays(s, e, g); }
    assert GrantOk(s.tasks, s.auth, g);
    hide Apply, Inv;
  }

  lemma {:induction false} GrantsOverRuns(es: seq<Event>, more: seq<Event>, g: GrantId)
    requires g in Run(es).auth.grants
    ensures var s, t := Run(es), Run(es + more);
            && g in t.auth.grants && t.auth.grants[g].token == s.auth.grants[g].token
                && t.auth.grants[g].created == s.auth.grants[g].created
            && (Dead(s.tasks, g) ==> Dead(t.tasks, g)) && (Settled(s.exec, g) ==> Settled(t.exec, g))
    decreases |more|
  {
    hide Run, Apply, Inv;
    if more == [] {
      assert es + more == es;
    } else {
      var front, e := more[..|more| - 1], more[|more| - 1];
      GrantsOverRuns(es, front, g);
      assert es + more == (es + front) + [e];
      RunSnoc(es + front, e);
      RunKeeps(es + front);
      FencedStep(Run(es + front), e, g);
    }
  }

  // Worker requests that name a task and present its token.
  predicate Presents(e: Event) {
    e.StartTask? || e.RenewTask? || e.BlockTask? || e.ReportTask? || e.SubmitRemote? || e.SubmitBoard?
  }

  // Requests that bear a token, whatever job and attempt they name.
  predicate Bears(e: Event, token: Token) {
    (Presents(e) && e.params.token == token) || (e.ClaimTask? && TokenOf(e.claim) == token)
  }

  // A token authorizes its own grant only.
  lemma TokenIsOwn(s: State, p: Params, now: int, g: GrantId)
    requires Inv(s) && g in s.auth.grants && p.token == s.auth.grants[g].token && Verified(s, p, now)
    ensures Id(p.job, p.attempt) == g
  {
    ClaimIsInjective(s.slot, s.tasks, s.auth, Id(p.job, p.attempt), g);
  }

  lemma FencedParams(s: State, p: Params, now: int, g: GrantId)
    requires Inv(s) && Fenced(s, g) && p.token == s.auth.grants[g].token && BoundTask(s, p, now)
    ensures Id(p.job, p.attempt) == g && Settled(s.exec, g) && g in s.exec.starts
    ensures forall contract, active :: !RunningValid(s, g, contract, active)
  {
    TokenIsOwn(s, p, now, g);
  }

  // A worker request acts only under a bound task.
  lemma UnboundRequest(s: State, e: Event)
    requires Presents(e) && !BoundTask(s, e.params, RequestTime(e))
    ensures Apply(s, e) == s
  {
    hide BoundTask, Verified;
  }

  function RequestTime(e: Event): int
    requires Presents(e)
  {
    if e.StartTask? then e.startReads.now else if e.RenewTask? then e.renewReads.now
    else if e.BlockTask? || e.ReportTask? then e.now else e.remoteReads.now
  }

  lemma StoppedRequest(s: State, e: Event)
    requires Presents(e) && !e.ReportTask?
    requires var g := Id(e.params.job, e.params.attempt);
             g in s.exec.starts && forall contract, active :: !RunningValid(s, g, contract, active)
    ensures Apply(s, e) == s
  {
    hide BoundTask, RunningValid;
  }

  lemma FencedRequest(s: State, e: Event, g: GrantId)
    requires Inv(s) && Fenced(s, g) && Bears(e, s.auth.grants[g].token) && (e.ReportTask? ==> Dead(s.tasks, g))
    ensures Apply(s, e) == s
  {
    if e.ClaimTask? {
      assert GrantOk(s.tasks, s.auth, g);
      assert e.claim.request in s.auth.receipts;
      hide Inv, ClaimReply;
    } else if BoundTask(s, e.params, RequestTime(e)) {
      FencedParams(s, e.params, RequestTime(e), g);
      assert !Dead(s.tasks, g);
      hide *;
      StoppedRequest(s, e);
    } else {
      hide *;
      UnboundRequest(s, e);
    }
  }

  // A report moves no job, grant, launch, resource or queue entry.
  lemma ReportsMoveNothing(s: State, e: Event)
    requires e.ReportTask?
    ensures Apply(s, e) == s.(replies := Apply(s, e).replies)
  {
    hide ReportReply;
  }

  /** Fencing: once an attempt is over (its job left `running` or was claimed again) no start, renewal,
      budget block, report, remote or board submission or claim bearing its token ever changes any
      state, however late it arrives. */
  lemma Fencing(es: seq<Event>, more: seq<Event>, e: Event, g: GrantId)
    requires g in Run(es).auth.grants && Dead(Run(es).tasks, g) && Bears(e, Run(es).auth.grants[g].token)
    ensures Run(es + more + [e]) == Run(es + more)
  {
    GrantsOverRuns(es, more, g);
    RunSnoc(es + more, e);
    RunKeeps(es + more);
    FencedRequest(Run(es + more), e, g);
  }

  /** Every way out of `running` ends the attempt for good. */
  lemma LeavingEndsTheAttempt(es: seq<Event>, e: Event, g: GrantId, more: seq<Event>)
    requires g in Run(es).auth.grants && Dead(Run(es + [e]).tasks, g)
    ensures Dead(Run(es + [e] + more).tasks, g)
  {
    RunSnoc(es, e);
    RunKeeps(es);
    FencedStep(Run(es), e, g);
    GrantsOverRuns(es + [e], more, g);
  }

  // ---- settlement ------------------------------------------------------------------------------------------

  predicate RemoteQuiet(s: State, g: GrantId) {
    forall r | r in s.remote.queue.actions && s.remote.queue.actions[r].grant == g ::
      !s.remote.queue.actions[r].state.Queued? && !s.remote.queue.actions[r].state.Running?
          && !Remote.Unsettled(s.remote, r)
  }

  lemma SettledIsQuiet(s: State, g: GrantId)
    requires Inv(s) && Settled(s.exec, g)
    ensures RemoteQuiet(s, g)
  {
    forall r | r in s.remote.queue.actions && s.remote.queue.actions[r].grant == g
      ensures !s.remote.queue.actions[r].state.Queued? && !s.remote.queue.actions[r].state.Running?
          && !Remote.Unsettled(s.remote, r)
    {
      Remote.UnsettledIsLoose(s.remote, r);
    }
  }

  /** Once a grant's resources are settled they stay settled, none of its remote actions is queued,
      running or unsettled in any later state, and no start, renewal, submission or claim bearing
      its token has any effect again. Only a report may still be stored while the job runs, and it
      moves nothing else. */
  lemma SettlementIsFinal(es: seq<Event>, more: seq<Event>, e: Event, g: GrantId)
    requires Settled(Run(es).exec, g)
    ensures Settled(Run(es + more).exec, g) && RemoteQuiet(Run(es + more), g)
    ensures g in Run(es).auth.grants
    ensures Bears(e, Run(es).auth.grants[g].token) ==>
              if e.ReportTask? then Run(es + more + [e]) == Run(es + more).(replies := Run(es + more + [e]).replies)
              else Run(es + more + [e]) == Run(es + more)
  {
    RunKeeps(es);
    assert g in Run(es).exec.starts;
    GrantsOverRuns(es, more, g);
    RunKeeps(es + more);
    SettledIsQuiet(Run(es + more), g);
    if Bears(e, Run(es).auth.grants[g].token) {
      RunSnoc(es + more, e);
      if e.ReportTask? { ReportsMoveNothing(Run(es + more), e); } else { FencedRequest(Run(es + more), e, g); }
    }
  }

  /** The answers agree: under a settled grant every start, renewal and submission is refused. */
  lemma SettledRefuses(es: seq<Event>, g: GrantId, p: Params, q: string, claim: string, digest: string,
                       start: StartReads, renew: RenewReads, remote: RemoteReads)
    requires Settled(Run(es).exec, g) && Id(p.job, p.attempt) == g
    ensures var s := Run(es);
            !StartAllowed(s, p, q, claim, start) && RenewReply(s, p, q, digest, renew).RenewRejected?
                && !Admits(s, p, remote)
  {
    RunKeeps(es);
    assert g in Run(es).exec.starts;
    hide BoundTask;
  }

  // ---- sending a command ---------------------------------------------------------------------------------------

  lemma CancelRuns(s: State, e: Event)
    requires e.FinishLaunch? || e.ReconcileGrant?
    ensures Apply(s, e).remote.runs == s.remote.runs
    ensures Apply(s, e).remote.queue.actions.Keys == s.remote.queue.actions.Keys
    ensures forall r | r in s.remote.queue.actions ::
        Apply(s, e).remote.queue.actions[r].grant == s.remote.queue.actions[r].grant
  {
    hide RemoteBusy;
  }

  // What the queue sees of a broker event.
  lemma QueueFrame(s: State, e: Event)
    requires !e.FinishLaunch? && !e.ReconcileGrant?
    ensures Apply(s, e).remote == if RemoteEvent(s, e).Some?
        then Remote.Apply(s.remote, RemoteEvent(s, e).value) else s.remote
  {
    hide Live, Remote.Apply, Admits, ActionLive, ExitSeen, Unfinished, RunsUnsettled, CaseAllows, BoundTask,
        StartAllowed, RunningValid,
         ClaimReply, RenewReply, RenewedLease, ReportReply, Recoverable, Broker.Released;
  }

  lemma SendIsReady(s: State, e: Event)
    requires Apply(s, e).remote.runs.executed != s.remote.runs.executed
    ensures e.SendRemote? && Remote.InPhase(s.remote, e.request, Remote.Ready)
  {
    hide Apply, Remote.Apply, Live, AdmitsSubmission, ActionLive, ExitSeen;
    if e.FinishLaunch? || e.ReconcileGrant? {
      CancelRuns(s, e);
    } else {
      QueueFrame(s, e);
      var x := RemoteEvent(s, e);
      if x.Some? { Remote.ExecutedGrowsFrom(s.remote, x.value); }
    }
  }

  lemma StartsGrow(s: State, e: Event)
    ensures s.exec.starts.Keys <= Apply(s, e).exec.starts.Keys
  {
    if !Observes(e) {
      ExecFrame(s, e);
    } else {
      hide Unfinished, CaseAllows, BoundTask, Settles, ClaimNames, Remote.CancelUnstarted;
    }
  }

  predicate Admitted(s: State, r: string) {
    r in s.remote.queue.actions ==> s.remote.queue.actions[r].grant in s.exec.starts
  }

  lemma AdmittedStep(s: State, e: Event, r: string)
    requires Inv(s) && Admitted(s, r)
    ensures Admitted(Apply(s, e), r)
  {
    StartsGrow(s, e);
    hide Apply, Remote.Apply, Inv, Live, BoundTask, ExitSeen;
    if e.FinishLaunch? || e.ReconcileGrant? {
      CancelRuns(s, e);
    } else {
      QueueFrame(s, e);
      var x := RemoteEvent(s, e);
      if x.Some? && r in s.remote.queue.actions {
        assert Remote.Inv(s.remote) by { InvParts(s); }
        Remote.ActionStep(s.remote, x.value, r);
      } else if x.Some? && r in Apply(s, e).remote.queue.actions {
        NewAction(s.remote, x.value, r);
      }
    }
  }

  lemma InvParts(s: State)
    requires Inv(s)
    ensures Remote.Inv(s.remote) && Quiet(s.exec, s.remote)
  {}

  /** Every remote action belongs to a grant whose start was authorized. */
  lemma {:induction false} ActionsAreStarted(es: seq<Event>, r: string)
    ensures Admitted(Run(es), r)
  {
    if es != [] {
      var front, e := es[..|es| - 1], es[|es| - 1];
      ActionsAreStarted(front, r);
      RunKeeps(front);
      hide Apply, Inv;
      AdmittedStep(Run(front), e, r);
    }
  }

  /** Whatever happened since the last check, a command is handed to the transport only for the one
      unsettled execution: its action is running, and its grant is started, unsettled, the latest
      attempt of its job and holds the one unfinished launch. */
  lemma CommandsRunUnderTheHeldLaunch(es: seq<Event>, e: Event)
    requires Run(es + [e]).remote.runs.executed != Run(es).remote.runs.executed
    ensures e.SendRemote? && e.request in Run(es).remote.queue.actions
    ensures var s := Run(es); var g := s.remote.queue.actions[e.request].grant;
            && s.remote.queue.actions[e.request].state.Running? && StartedUnsettled(s, g)
            && g in s.auth.grants && Unfinished(s.slot, s.auth.grants[g].token.request)
            && g.job in s.tasks.jobs && s.tasks.jobs[g.job].attempt == g.attempt
  {
    var s := Run(es);
    RunSnoc(es, e);
    RunKeeps(es);
    SendIsReady(s, e);
    InvParts(s);
    ActionsAreStarted(es, e.request);
    assert Remote.PhaseFits(s.remote, e.request) && Remote.Loose(s.remote, e.request);
    var g := s.remote.queue.actions[e.request].grant;
    assert !Settled(s.exec, g);
    StartedUnsettledHoldsItsLaunch(es, g);
  }

  // The check at step k found the action's attempt live.
  ghost predicate FoundLive(es: seq<Event>, r: string, k: nat) {
    && k < |es| && es[k].CheckRemote? && es[k].request == r && r in Run(es[..k]).remote.queue.actions
    && Live(Run(es[..k]), Run(es[..k]).remote.queue.actions[r].grant, es[k].remoteReads)
  }

  lemma ReadyFrom(s: State, e: Event, r: string)
    requires Remote.InPhase(Apply(s, e).remote, r, Remote.Ready) && !Remote.InPhase(s.remote, r, Remote.Ready)
    ensures e.CheckRemote? && e.request == r && ActionLive(s, r, e.remoteReads)
  {
    hide Apply, Live, AdmitsSubmission, ActionLive, ExitSeen;
    if e.FinishLaunch? || e.ReconcileGrant? { CancelRuns(s, e); } else { QueueFrame(s, e); }
  }

  // From the state after the k-th event on, the action waits to be sent.
  ghost predicate ReadySince(es: seq<Event>, r: string, k: nat) {
    forall n | k < n <= |es| :: Remote.InPhase(Run(es[..n]).remote, r, Remote.Ready)
  }

  lemma {:induction false} ReadyWasLive(es: seq<Event>, r: string) returns (k: nat)
    requires Remote.InPhase(Run(es).remote, r, Remote.Ready)
    ensures FoundLive(es, r, k) && ReadySince(es, r, k)
  {
    var front, e := es[..|es| - 1], es[|es| - 1];
    hide Apply, Live;
    assert es[..|es|] == es;
    if Remote.InPhase(Run(front).remote, r, Remote.Ready) {
      k := ReadyWasLive(front, r);
      assert forall n | 0 <= n < |es| :: front[..n] == es[..n];
    } else {
      k := |es| - 1;
      ReadyFrom(Run(front), e, r);
    }
  }

  /** Before every send a check of the same action, in a transaction of its own, found its attempt
      current, started, unexpired and without observed exit. */
  lemma EverySendWasChecked(es: seq<Event>, e: Event) returns (k: nat)
    requires Run(es + [e]).remote.runs.executed != Run(es).remote.runs.executed
    ensures e.SendRemote? && FoundLive(es, e.request, k) && ReadySince(es, e.request, k)
  {
    RunSnoc(es, e);
    SendIsReady(Run(es), e);
    k := ReadyWasLive(es, e.request);
  }

  // The grant of an accepted action never changes.
  lemma {:induction false} ActionKept(es: seq<Event>, more: seq<Event>, r: string)
    requires r in Run(es).remote.queue.actions
    ensures r in Run(es + more).remote.queue.actions
    ensures Run(es + more).remote.queue.actions[r].grant == Run(es).remote.queue.actions[r].grant
    decreases |more|
  {
    hide Run, Apply, Inv;
    if more == [] {
      assert es + more == es;
    } else {
      var front, e := more[..|more| - 1], more[|more| - 1];
      ActionKept(es, front, r);
      assert es + more == (es + front) + [e];
      RunSnoc(es + front, e);
      RunKeeps(es + front);
      ActionKeptStep(Run(es + front), e, r);
    }
  }

  lemma ActionKeptStep(s: State, e: Event, r: string)
    requires Inv(s) && r in s.remote.queue.actions
    ensures r in Apply(s, e).remote.queue.actions
    ensures Apply(s, e).remote.queue.actions[r].grant == s.remote.queue.actions[r].grant
  {
    hide Apply, Remote.Apply, Inv, RemoteEvent;
    if e.FinishLaunch? || e.ReconcileGrant? {
      CancelRuns(s, e);
    } else {
      QueueFrame(s, e);
      InvParts(s);
      var x := RemoteEvent(s, e);
      if x.Some? { Remote.ActionStep(s.remote, x.value, r); }
    }
  }

  // The event moves this very job out of `running` from outside the broker.
  predicate MovesAway(e: Event, job: string) { e.MoveJobTo? && e.job == job && !e.state.Running? }

  // While an action is running, the resources of its grant cannot settle.
  lemma RunningBlocksSettlement(s: State, r: string, g: GrantId, boardOk: bool, at: int)
    requires Inv(s) && r in s.remote.queue.actions && s.remote.queue.actions[r].state.Running?
    requires s.remote.queue.actions[r].grant == g
    ensures !Settles(s, g, boardOk, at)
  {
    if ExitBound(s, g) {
      var t := Inspected(s, g, at);
      InspectedKeeps(s, g, at);
      assert t.remote.queue.actions[r] == s.remote.queue.actions[r];
      Remote.UnsettledIsLoose(t.remote, r);
      assert RemoteBusy(t, g);
    }
  }

  // The settlement of another grant, or one that does not settle, leaves the job of this one alone.
  lemma ReconcileSpares(s: State, e: Event, g: GrantId)
    requires e.ReconcileGrant? && !Dead(s.tasks, g) && (e.grant == g ==> !Settles(s, g, e.boardOk, e.at))
    ensures !Dead(Apply(s, e).tasks, g)
  {
    hide Settles, CaseAllows, Remote.CancelUnstarted;
  }

  // Parking, claims, renewals, budget blocks, reclaims and recoveries spare a started, running job.
  lemma BrokerSpares(s: State, e: Event, g: GrantId)
    requires MovesJobs(e) && !e.ReconcileGrant? && !MovesAway(e, g.job) && !Dead(s.tasks, g) && g in s.exec.starts
    ensures !Dead(Apply(s, e).tasks, g)
  {
    if e.ClaimTask? {
      ClaimSpares(s, e.claim, e.claimReads, g);
    } else if e.RenewTask? {
      RenewSpares(s, e.params, e.request, e.digest, e.renewReads, g);
    } else {
      hide Claim, Renew, Broker.Released, CaseAllows, Verified, Unfinished;
    }
  }

  lemma ClaimSpares(s: State, c: ClaimRequest, r: ClaimReads, g: GrantId)
    requires !Dead(s.tasks, g)
    ensures !Dead(Claim(s, c, r).tasks, g)
  {
    if !ClaimReply(s, c, r).ClaimRejected? && c.request !in s.auth.receipts {
      ClaimEffect(s, c, r);
    }
  }

  lemma RenewSpares(s: State, p: Params, q: string, d: string, r: RenewReads, g: GrantId)
    requires !Dead(s.tasks, g)
    ensures !Dead(Renew(s, p, q, d, r).tasks, g)
  {
    if !RenewReply(s, p, q, d, r).RenewRejected? && q !in s.replies.stored {
      RenewEffect(s, p, q, d, r);
    }
  }

  // While its action waits to be sent, only an outside move of its own job ends an attempt.
  lemma OnlyMovesEnd(s: State, e: Event, r: string, g: GrantId)
    requires Inv(s) && Admitted(s, r) && Remote.InPhase(s.remote, r, Remote.Ready) && r in s.remote.queue.actions
    requires s.remote.queue.actions[r].grant == g && !Dead(s.tasks, g) && !MovesAway(e, g.job)
    ensures !Dead(Apply(s, e).tasks, g)
  {
    InvParts(s);
    assert Remote.PhaseFits(s.remote, r);
    hide Inv, Apply, Remote.Inv, Quiet, Dead;
    if !MovesJobs(e) {
      TasksFrame(s, e);
    } else if e.ReconcileGrant? {
      if e.grant == g { RunningBlocksSettlement(s, r, g, e.boardOk, e.at); }
      ReconcileSpares(s, e, g);
    } else {
      BrokerSpares(s, e, g);
    }
  }

  lemma LiveAfterCheck(es: seq<Event>, r: string, k: nat)
    requires FoundLive(es, r, k)
    ensures !Dead(Run(es[..k + 1]).tasks, Run(es[..k]).remote.queue.actions[r].grant)
  {
    assert es[..k + 1] == es[..k] + [es[k]];
    RunSnoc(es[..k], es[k]);
    TasksFrame(Run(es[..k]), es[k]);
    hide Run, Apply;
  }

  lemma {:induction false} LiveUntilMoved(es: seq<Event>, r: string, k: nat, n: nat, g: GrantId)
    requires FoundLive(es, r, k) && ReadySince(es, r, k) && k < n <= |es|
    requires Run(es[..k]).remote.queue.actions[r].grant == g
    requires forall m | k < m < n :: !MovesAway(es[m], g.job)
    ensures !Dead(Run(es[..n]).tasks, g)
    decreases n
  {
    hide Run, Live, Apply, Inv, Dead, MovesAway, Remote.InPhase, Admitted;
    if n == k + 1 {
      LiveAfterCheck(es, r, k);
    } else {
      LiveUntilMoved(es, r, k, n - 1, g);
      var front, e := es[..n - 1], es[n - 1];
      assert es[..n] == front + [e] && es[..k] + es[k..n - 1] == front;
      ActionKept(es[..k], es[k..n - 1], r);
      ActionsAreStarted(front, r);
      RunKeeps(front);
      RunSnoc(front, e);
      OnlyMovesEnd(Run(front), e, r, g);
    }
  }

  lemma MoveEnds(s: State, e: Event, g: GrantId)
    requires Inv(s) && g in s.auth.grants && MovesAway(e, g.job)
    ensures Dead(Apply(s, e).tasks, g)
  {
    assert GrantOk(s.tasks, s.auth, g);
  }

  // An outside move of its job ends an attempt for good.
  lemma MovedIsDead(es: seq<Event>, m: nat, g: GrantId)
    requires m < |es| && g in Run(es[..m]).auth.grants && MovesAway(es[m], g.job)
    ensures Dead(Run(es).tasks, g)
  {
    hide Run, Apply, Inv, Dead, MovesAway;
    var e := es[m];
    RunSnoc(es[..m], e);
    RunKeeps(es[..m]);
    MoveEnds(Run(es[..m]), e, g);
    LeavingEndsTheAttempt(es[..m], e, g, es[m + 1..]);
    assert es[..m] + [e] + es[m + 1..] == es;
  }

  /** Exactly when a command is sent for an attempt that is over: when, after the check that preceded
      the send, that very job was moved out of `running` from outside. Nothing the broker itself does
      in between can end the attempt. */
  lemma DeadAtTheSendIff(es: seq<Event>, e: Event) returns (k: nat)
    requires Run(es + [e]).remote.runs.executed != Run(es).remote.runs.executed
    ensures e.SendRemote? && FoundLive(es, e.request, k)
    ensures var g := Run(es[..k]).remote.queue.actions[e.request].grant;
            Dead(Run(es).tasks, g) <==>
              exists m :: k < m < |es| && es[m].MoveJobTo? && es[m].job == g.job && !es[m].state.Running?
  {
    k := EverySendWasChecked(es, e);
    var g := Run(es[..k]).remote.queue.actions[e.request].grant;
    assert g in Run(es[..k]).auth.grants;
    hide Run, Dead, Live;
    assert es[..|es|] == es;
    if m :| k < m < |es| && MovesAway(es[m], g.job) {
      assert es[..k] + es[k..m] == es[..m];
      GrantsOverRuns(es[..k], es[k..m], g);
      MovedIsDead(es, m, g);
    } else {
      LiveUntilMoved(es, e.request, k, |es|, g);
    }
  }

  /** The queue's own guarantees hold in the combined system. */
  lemma RemoteCommandsRunOnce(es: seq<Event>, i: nat, j: nat, p: string, q: string)
    requires i < j < |Run(es).remote.runs.executed|
    ensures Run(es).remote.runs.executed[i] != Run(es).remote.runs.executed[j]
    ensures Remote.Unsettled(Run(es).remote, p) && Remote.Unsettled(Run(es).remote, q) ==> p == q
  {
    RunKeeps(es);
    Remote.UnsettledIsLoose(Run(es).remote, p);
    Remote.UnsettledIsLoose(Run(es).remote, q);
  }

  // ---- lifetimes ---------------------------------------------------------------------------------------------

  /** While its attempt is current a grant expires no later than the job lease, and neither passes
      120 + 7200 seconds after the claim, whatever was renewed before and after the start. */
  lemma LifetimeBound(es: seq<Event>, g: GrantId)
    requires g in Run(es).auth.grants && !Dead(Run(es).tasks, g)
    ensures var s := Run(es);
            && s.tasks.jobs[g.job].lease.Some?
            && s.auth.grants[g].expires <= s.tasks.jobs[g.job].lease.value <= s.auth.grants[g].created + 120 + 7200
            && (g !in s.exec.starts ==> s.tasks.jobs[g.job].lease.value == s.auth.grants[g].created + 120)
  {
    RunKeeps(es);
    var s := Run(es);
    assert LeaseOk(s.tasks, s.auth, s.exec, g);
  }

  /** The claim time is recorded once: after it plus the bound no token of the attempt verifies. */
  lemma AuthorityEnds(es: seq<Event>, more: seq<Event>, g: GrantId, p: Params, now: int)
    requires g in Run(es).auth.grants && Id(p.job, p.attempt) == g && Verified(Run(es + more), p, now)
    ensures Run(es).auth.grants[g].created <= now < Run(es).auth.grants[g].created + 120 + 7200
  {
    GrantsOverRuns(es, more, g);
    RunKeeps(es + more);
    var s := Run(es + more);
    assert LeaseOk(s.tasks, s.auth, s.exec, g);
  }

  // The task is as the claim bound it, apart from time.
  predicate Fixed(s: State, p: Params) {
    var g := Id(p.job, p.attempt);
    && g in s.auth.grants && s.auth.grants[g].token == p.token && !s.auth.grants[g].revoked
    && s.auth.grants[g].round == p.round && s.auth.grants[g].input == p.input && p.job in s.tasks.jobs
    && var j := s.tasks.jobs[p.job];
       && j.caseId == p.caseId && CaseAllows(s, j) && j.state.Running? && j.attempt == p.attempt
       && j.round == p.round && j.input == p.input && j.owner == Some(s.auth.grants[g].owner)
  }

  lemma BoundWhile(s: State, p: Params, now: int)
    ensures BoundTask(s, p, now) <==>
              && Fixed(s, p) && s.auth.grants[Id(p.job, p.attempt)].created <= now <
                  s.auth.grants[Id(p.job, p.attempt)].expires
              && s.tasks.jobs[p.job].lease.Some? && now < s.tasks.jobs[p.job].lease.value
  {}

  lemma ClaimedState(s: State, c: ClaimRequest, r: ClaimReads)
    requires c.request !in s.auth.receipts && ClaimReply(s, c, r).Assigned?
    ensures var a, t := ClaimReply(s, c, r), Claim(s, c, r);
            var g := Id(a.task.job, a.task.attempt);
            && Fixed(t, ParamsOf(a.task, a.token)) && t.auth.grants[g].created == r.now
            && t.auth.grants[g].expires == r.now + 120 && t.tasks.jobs[a.task.job].lease == Some(r.now + 120)
  {
    ClaimEffect(s, c, r);
    hide Claim;
  }

  /** A first claim authorizes its task for exactly the next 120 seconds. */
  lemma ClaimAuthorizesExactly(s: State, c: ClaimRequest, r: ClaimReads, t: int)
    requires c.request !in s.auth.receipts && ClaimReply(s, c, r).Assigned?
    ensures var a := ClaimReply(s, c, r);
            BoundTask(Claim(s, c, r), ParamsOf(a.task, a.token), t) <==> r.now <= t < r.now + 120
  {
    var a := ClaimReply(s, c, r);
    ClaimedState(s, c, r);
    BoundWhile(Claim(s, c, r), ParamsOf(a.task, a.token), t);
    hide *;
  }

  lemma RenewedState(s: State, p: Params, q: string, digest: string, r: RenewReads)
    requires q !in s.replies.stored && RenewReply(s, p, q, digest, r).Renewed?
    ensures var t := Renew(s, p, q, digest, r); var g := Id(p.job, p.attempt);
            && BoundTask(s, p, r.now) && RenewedLease(s, p, r.now).Some? && Fixed(t, p)
            && t.auth.grants[g].created == s.auth.grants[g].created
            && t.auth.grants[g].expires == Min(RenewedLease(s, p, r.now).value, r.now + 300)
            && t.tasks.jobs[p.job].lease == RenewedLease(s, p, r.now)
  {
    RenewEffect(s, p, q, digest, r);
    hide Renew, RenewReply, RenewedLease;
  }

  // The end of a task's authority after a renewal.
  function RenewedUntil(s: State, g: GrantId, now: int): int
    requires g in s.auth.grants
  {
    if g in s.exec.starts then Min(now + 120, s.exec.starts[g].at + 7200) else s.auth.grants[g].created + 120
  }

  lemma RenewedLeaseIs(s: State, p: Params, now: int)
    requires Leases(s.tasks, s.auth, s.exec) && BoundTask(s, p, now) && RenewedLease(s, p, now).Some?
    ensures RenewedLease(s, p, now).value == RenewedUntil(s, Id(p.job, p.attempt), now) <= now + 300
  {
    assert LeaseOk(s.tasks, s.auth, s.exec, Id(p.job, p.attempt));
  }

  /** A renewal that takes effect authorizes the task up to exactly 120 seconds from now and never
      past 7200 seconds from its start; before the start it does not move the end of the claim. */
  lemma RenewalAuthorizesExactly(es: seq<Event>, p: Params, q: string, digest: string, r: RenewReads, t: int)
    requires q !in Run(es).replies.stored && RenewReply(Run(es), p, q, digest, r).Renewed?
    ensures Id(p.job, p.attempt) in Run(es).auth.grants
    ensures BoundTask(Renew(Run(es), p, q, digest, r), p, t) <==>
              Run(es).auth.grants[Id(p.job, p.attempt)].created <= t < RenewedUntil(Run(es), Id(p.job, p.attempt),
                  r.now)
  {
    RunKeeps(es);
    RenewedState(Run(es), p, q, digest, r);
    RenewedLeaseIs(Run(es), p, r.now);
    BoundWhile(Renew(Run(es), p, q, digest, r), p, t);
    hide Run, Inv, Renew, RenewReply, Fixed, RenewedUntil, RenewedLease;
  }

  // ---- replay ------------------------------------------------------------------------------------------------------

  lemma StoredStay(s: State, e: Event, q: string)
    ensures q in s.replies.stored ==>
        q in Apply(s, e).replies.stored && Apply(s, e).replies.stored[q] == s.replies.stored[q]
    ensures q in s.auth.receipts ==>
        q in Apply(s, e).auth.receipts && Apply(s, e).auth.receipts[q] == s.auth.receipts[q]
  {
    if e.ClaimTask? || e.RenewTask? || e.RevokeGrant? || e.ReportTask? || e.SubmitBoard? || e.BoardMoves? {
      hide Unfinished, BoundTask, CaseAllows, RenewedLease, RunningValid, Admits;
    } else {
      AuthFrame(s, e);
      hide Apply;
    }
  }

  lemma {:induction false} StoredOverRuns(es: seq<Event>, more: seq<Event>, q: string)
    ensures var s, t := Run(es), Run(es + more);
            && (q in s.replies.stored ==> q in t.replies.stored && t.replies.stored[q] == s.replies.stored[q])
            && (q in s.auth.receipts ==> q in t.auth.receipts && t.auth.receipts[q] == s.auth.receipts[q])
    decreases |more|
  {
    hide Run, Apply;
    if more == [] {
      assert es + more == es;
    } else {
      var front, e := more[..|more| - 1], more[|more| - 1];
      StoredOverRuns(es, front, q);
      assert es + more == (es + front) + [e];
      RunSnoc(es + front, e);
      StoredStay(Run(es + front), e, q);
    }
  }

  /** The handlers of renewals and reports take effect at most once per request. */
  lemma RenewalOnce(es: seq<Event>, i: nat, j: nat)
    requires i < |Run(es).replies.effects| && j < |Run(es).replies.effects|
    requires Run(es).replies.effects[i] == Run(es).replies.effects[j]
    ensures i == j && Run(es).replies.effects[i] in Run(es).replies.stored
  {
    RunKeeps(es);
  }

  /** A renewal that was answered is answered the same for ever: a repeat has no effect, returns the
      first response while it is still authorized, and is rejected when its content or grant differs. */
  lemma RenewalReplay(es: seq<Event>, more: seq<Event>, p: Params, q: string, digest: string, r: RenewReads,
                      p': Params, digest': string, r': RenewReads)
    requires q !in Run(es).replies.stored && RenewReply(Run(es), p, q, digest, r).Renewed?
    ensures var first := RenewReply(Run(es), p, q, digest, r);
            var t := Run(es + [RenewTask(p, q, digest, r)] + more);
            && Renew(t, p', q, digest', r') == t
            && RenewReply(t, p', q, digest', r') ==
                 if RenewOpen(t, p', r') && digest' == digest && Id(p'.job, p'.attempt) == Id(p.job, p.attempt)
                     then first else RenewRejected
  {
    var e := RenewTask(p, q, digest, r);
    RunSnoc(es, e);
    assert Run(es + [e]).replies.stored[q] == Reply(digest, Id(p.job, p.attempt),
        Some(RenewReply(Run(es), p, q, digest, r).expires)) by {
      hide Run, RenewOpen, BoundTask, RunningValid;
    }
    StoredOverRuns(es + [e], more, q);
    hide Run, RenewOpen, RenewedLease, Apply;
  }

  /** A claim that was assigned a task is bound to it: a repeat has no effect, returns the same task
      and token exactly while the claim is still open and the task bound, and a changed request or
      key under the same identifier is rejected. */
  lemma ClaimReplay(es: seq<Event>, more: seq<Event>, c: ClaimRequest, r: ClaimReads, c': ClaimRequest, r': ClaimReads)
    requires c.request !in Run(es).auth.receipts && ClaimReply(Run(es), c, r).Assigned? && c'.request == c.request
    ensures var first := ClaimReply(Run(es), c, r);
            var t := Run(es + [ClaimTask(c, r)] + more);
            && Claim(t, c', r') == t
            && ClaimReply(t, c', r') ==
                 if c' == c && ClaimOpen(t, c, r') && BoundTask(t, ParamsOf(first.task, first.token), r'.now)
                     then first else ClaimRejected
  {
    var e := ClaimTask(c, r);
    var first, t := ClaimReply(Run(es), c, r), Run(es + [e] + more);
    RunSnoc(es, e);
    FirstReceipt(Run(es), c, r);
    StoredOverRuns(es + [e], more, c.request);
    RunKeeps(es + [e] + more);
    assert ReceiptOk(t.slot, t.auth, c.request);
    hide Run, Inv, ReceiptOk, Apply;
    ReceiptAnswers(t, c, c', r', first.task);
  }

  /** A claim that found no task is bound to that: in every continuation a repeat has no effect, never
      assigns anything, and is answered the same exactly while the claim is open and unchanged. */
  lemma EmptyClaimReplay(es: seq<Event>, more: seq<Event>, c: ClaimRequest, r: ClaimReads, c': ClaimRequest,
      r': ClaimReads)
    requires c.request !in Run(es).auth.receipts && ClaimReply(Run(es), c, r).NoTask? && c'.request == c.request
    ensures var t := Run(es + [ClaimTask(c, r)] + more);
            && Claim(t, c', r') == t
            && ClaimReply(t, c', r') == if c' == c && ClaimOpen(t, c, r') then NoTask else ClaimRejected
  {
    var e := ClaimTask(c, r);
    RunSnoc(es, e);
    EmptyReceipt(Run(es), c, r);
    StoredOverRuns(es + [e], more, c.request);
    hide Run, Apply, Claimable, BoundTask;
  }

  lemma EmptyReceipt(s: State, c: ClaimRequest, r: ClaimReads)
    requires c.request !in s.auth.receipts && ClaimReply(s, c, r).NoTask?
    ensures c.request in Claim(s, c, r).auth.receipts
    ensures Claim(s, c, r).auth.receipts[c.request] == ClaimReceipt(c.digest, c.key, None)
  {
    hide BoundTask, CaseAllows;
  }

  /** A report that was accepted is accepted for ever under its own request: in every continuation a
      repeat has no effect, is accepted exactly under a valid token with the same content and grant, and
      is rejected otherwise. */
  lemma ReportReplay(es: seq<Event>, more: seq<Event>, p: Params, q: string, digest: string, report: string,
      valid: bool, now: int,
                     p': Params, digest': string, report': string, valid': bool, now': int)
    requires q !in Run(es).replies.stored && ReportReply(Run(es), p, q, digest, report, valid, now).ReportAccepted?
    ensures var t := Run(es + [ReportTask(p, q, digest, report, valid, now)] + more);
            && Report(t, p', q, digest', report', valid', now') == t
            && ReportReply(t, p', q, digest', report', valid', now') ==
                 if Verified(t, p', now') && digest' == digest && Id(p'.job, p'.attempt) == Id(p.job, p.attempt)
                 then ReportAccepted else ReportRejected
  {
    var e := ReportTask(p, q, digest, report, valid, now);
    RunSnoc(es, e);
    assert Run(es + [e]).replies.stored[q] == Reply(digest, Id(p.job, p.attempt), None) by {
      hide Run, BoundTask, Verified;
    }
    StoredOverRuns(es + [e], more, q);
    hide Run, Apply, Verified, BoundTask;
  }

  lemma FirstReceipt(s: State, c: ClaimRequest, r: ClaimReads)
    requires c.request !in s.auth.receipts && ClaimReply(s, c, r).Assigned?
    ensures c.request in Claim(s, c, r).auth.receipts && ClaimReply(s, c, r).token == TokenOf(c)
    ensures Claim(s, c, r).auth.receipts[c.request] == ClaimReceipt(c.digest, c.key, Some(ClaimReply(s, c, r).task))
  {
    hide BoundTask, CaseAllows;
  }

  lemma ReceiptAnswers(t: State, c: ClaimRequest, c': ClaimRequest, r': ClaimReads, task: Task)
    requires c.request in t.auth.receipts && t.auth.receipts[c.request] == ClaimReceipt(c.digest, c.key, Some(task))
    requires c'.request == c.request && ReceiptOk(t.slot, t.auth, c.request)
    ensures Claim(t, c', r') == t
    ensures ClaimReply(t, c', r') ==
              if c' == c && ClaimOpen(t, c, r') && BoundTask(t, ParamsOf(task, TokenOf(c)), r'.now)
                  then Assigned(task, TokenOf(c)) else ClaimRejected
  {
    hide Claimable, Verified, CaseAllows;
  }

  lemma RepeatAtOnce(s: State, c: ClaimRequest, r: ClaimReads)
    requires c.request !in s.auth.receipts && !ClaimReply(s, c, r).ClaimRejected?
    ensures ClaimReply(Claim(s, c, r), c, r) == ClaimReply(s, c, r)
  {
    ClaimEffect(s, c, r);
    hide Claim;
  }

  /** Repeating the claim at once returns what it returned. */
  lemma ClaimRepeats(es: seq<Event>, c: ClaimRequest, r: ClaimReads)
    requires c.request !in Run(es).auth.receipts && !ClaimReply(Run(es), c, r).ClaimRejected?
    ensures ClaimReply(Run(es + [ClaimTask(c, r)]), c, r) == ClaimReply(Run(es), c, r)
  {
    RunSnoc(es, ClaimTask(c, r));
    RepeatAtOnce(Run(es), c, r);
    hide ClaimReply, Claim, Run;
  }
}
