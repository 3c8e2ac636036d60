/**
 The broker as the source runs it: transactions that rewrite rows of a shared database. Each
 method is proved against the transaction functions of the model, so the theorems about runs
 hold of the tables these methods leave behind.
 */
module BrokerStore {
  import opened Options
  import opened Traces
  import opened Broker
  import BrokerTheorems
  import Remote = RemoteQueue

  // ---- several transactions in a row ---------------------------------------------------------------

  /** Transactions applied to a reachable state lead to a reachable state. */
  lemma {:induction false} TraceIsRun(es: seq<Event>, more: seq<Event>)
    ensures Fold(Apply, Run(es), more) == Run(es + more)
    decreases |more|
  {
    if more == [] {
      assert es + more == es;
    } else {
      var front, e := more[..|more| - 1], more[|more| - 1];
      TraceIsRun(es, front);
      assert es + more == (es + front) + [e];
      BrokerTheorems.RunSnoc(es + front, e);
    }
  }

  // Events as the transactions they stand for.
  lemma ParkTrace(s: State, es: seq<Event>, job: string)
    ensures Fold(Apply, s, es + [ParkInvalid(job)]) == Park(Fold(Apply, s, es), job)
  {
    FoldSnoc(Apply, s, es, ParkInvalid(job));
    hide Fold;
  }

  lemma DispatchTrace(s: State, es: seq<Event>, q: string, job: string, contract: string)
    ensures Fold(Apply, s, es + [DispatchOne(q, job, contract, true, true)]) ==
        Dispatch(Fold(Apply, s, es), q, job, contract, true, true)
  {
    FoldSnoc(Apply, s, es, DispatchOne(q, job, contract, true, true));
    hide Fold, Dispatch;
  }

  lemma ReclaimTrace(s: State, es: seq<Event>, q: string, now: int)
    ensures Fold(Apply, s, es + [ReclaimLaunch(q, now)]) == Reclaim(Fold(Apply, s, es), q, now)
  {
    FoldSnoc(Apply, s, es, ReclaimLaunch(q, now));
    hide Fold, Reclaim;
  }

  ghost function Open(slot: Slot): set<string> {
    set q | q in slot.launches && Unfinished(slot, q)
  }

  lemma FinishCounts(s: Slot, t: Slot, q: string)
    requires q in s.launches && q in t.launches && t.launches == s.launches[q := t.launches[q]]
        && t.launches[q].state.Finished?
    ensures |Open(t)| == |Open(s)| - (if Unfinished(s, q) then 1 else 0)
  {
    assert forall p :: p in Open(t) <==> p in Open(s) && p != q;
    assert Open(t) == Open(s) - {q};
  }

  // ---- finishing and reclaiming, one candidate at a time ----------------------------------------------

  datatype Candidate = Candidate(request: string, grant: GrantId, boardOk: bool, contextOk: bool, outcome: JobState)

  // Some launch is unfinished, or some running job's resources are not settled.
  ghost predicate Taken(s: State) {
    || (exists q :: q in s.slot.launches && Unfinished(s.slot, q))
    || (exists j :: j in s.tasks.jobs && RunsUnsettled(s, j))
  }

  // The first n jobs of the window are parked, and all of them are invalid.
  ghost predicate Parks(window: seq<string>, invalid: set<string>, trace: seq<Event>, n: nat) {
    n <= |window| && n <= |trace| && forall i | 0 <= i < n :: window[i] in invalid && trace[i] == ParkInvalid(window[i])
  }

  // What a dispatch does to its window: the first valid job is launched and those before it are parked.
  ghost predicate DispatchesFirst(window: seq<string>, invalid: set<string>, request: string, contract: string,
                                  r: DispatchState, trace: seq<Event>) {
    match r
    case Launched(job) =>
      var n := |trace| - 1;
      0 <= n < |window| && job == window[n] && job !in invalid && Parks(window, invalid, trace, n) &&
      trace[n] == Broker.DispatchOne(request, job, contract, true, true)
    case Idle => |trace| == |window| && Parks(window, invalid, trace, |window|)
    case _ => trace == []
  }

  lemma NothingDispatched(window: seq<string>, invalid: set<string>, request: string, contract: string)
    ensures DispatchesFirst(window, invalid, request, contract, Disabled, [])
    ensures DispatchesFirst(window, invalid, request, contract, Occupied, [])
  {}

  lemma DispatchedAfter(window: seq<string>, invalid: set<string>, request: string, contract: string,
      parked: seq<Event>)
    requires Parks(window, invalid, parked, |parked|) && (|parked| < |window| ==> window[|parked|] !in invalid)
    ensures if |parked| == |window| then DispatchesFirst(window, invalid, request, contract, Idle, parked)
            else DispatchesFirst(window, invalid, request, contract, Launched(window[|parked|]),
                                 parked + [Broker.DispatchOne(request, window[|parked|], contract, true, true)])
  {}

  // The launch is unfinished, and its job was claimed, never started, and its lease is over.
  predicate Reclaimable(s: State, q: string, now: int) {
    && q in s.slot.launches && s.slot.launches[q].state != Finished && s.slot.launches[q].job in s.tasks.jobs
    && (var job := s.slot.launches[q].job;
        var j := s.tasks.jobs[job];
        j.state == Running && j.lease.Some? && j.lease.value < now && Id(job, j.attempt) !in s.exec.starts)
  }

  // The transactions for one candidate: it is reconciled exactly when it was finished.
  ghost function CandidateSteps(s: State, c: Candidate, at: int): seq<Event> {
    var finish := FinishLaunch(c.request, c.grant, c.boardOk, at);
    if Unfinished(s.slot, c.request) && !Unfinished(Apply(s, finish).slot, c.request)
    then [finish, ReconcileGrant(c.grant, c.boardOk, c.contextOk, c.outcome, at)]
    else [finish]
  }

  ghost function FinishTrace(s: State, candidates: seq<Candidate>, at: int): seq<Event> {
    if candidates == [] then []
    else
      var before := FinishTrace(s, candidates[..|candidates| - 1], at);
      before + CandidateSteps(Fold(Apply, s, before), candidates[|candidates| - 1], at)
  }

  lemma CandidateApply(s: State, c: Candidate, at: int)
    ensures Apply(s, FinishLaunch(c.request, c.grant, c.boardOk, at)) ==
        FinishObserved(s, c.request, c.grant, c.boardOk, at)
    ensures Apply(s, ReconcileGrant(c.grant, c.boardOk, c.contextOk, c.outcome, at)) ==
              Reconcile(s, c.grant, c.boardOk, c.contextOk, c.outcome, at)
  {
    hide FinishObserved, Reconcile;
  }

  lemma CandidateFold(s: State, c: Candidate, at: int, t: State)
    requires t == FinishObserved(s, c.request, c.grant, c.boardOk, at)
    ensures var done := Unfinished(s.slot, c.request) && !Unfinished(t.slot, c.request);
            Fold(Apply, s, CandidateSteps(s, c, at)) ==
              if done then Reconcile(t, c.grant, c.boardOk, c.contextOk, c.outcome, at) else t
  {
    var finish := FinishLaunch(c.request, c.grant, c.boardOk, at);
    var reconcile := ReconcileGrant(c.grant, c.boardOk, c.contextOk, c.outcome, at);
    hide FinishObserved, Reconcile, Fold, Apply, Unfinished;
    CandidateApply(s, c, at);
    CandidateApply(t, c, at);
    FoldOne(Apply, s, finish);
    FoldSnoc(Apply, s, [finish], reconcile);
    assert [finish] + [reconcile] == [finish, reconcile];
  }

  // ---- the tables -----------------------------------------------------------------------------------------

  datatype DispatchState = Disabled | Occupied | Idle | Launched(job: string)

  class Control {
    var slot: Slot
    var tasks: Tasks
    var auth: Auth
    var exec: Exec
    var stored: map<string, Reply>
    var reports: map<GrantId, string>
    var board: map<string, BoardAction>
    var remote: Remote.State
    ghost var effects: seq<string>

    ghost function State(): State
      reads this
    {
      Broker.State.State(slot, tasks, auth, exec, Replies(stored, effects, reports, board), remote)
    }

    constructor ()
      ensures State() == Init()
    {
      slot := Slot(map[], {});
      tasks := Tasks(map[], map[]);
      auth := Auth(map[], map[]);
      exec := Exec(map[], map[], map[]);
      stored, effects, reports, board := map[], [], map[], map[];
      remote := Remote.Init();
    }

    // `next_candidate`: the first queued job whose input projects; invalid ones before it are parked.
    method NextCandidate(window: seq<string>, invalid: set<string>) returns (row: Option<string>,
        ghost parked: seq<Event>)
      requires forall i | 0 <= i < |window| :: window[i] in tasks.jobs && tasks.jobs[window[i]].state.Queued?
      requires forall i, j | 0 <= i < j < |window| :: window[i] != window[j]
      modifies this`tasks
      ensures State() == Fold(Apply, old(State()), parked) && |parked| <= |window|
      ensures Parks(window, invalid, parked, |parked|)
      ensures if |parked| == |window|
          then row == None else window[|parked|] !in invalid && row == Some(window[|parked|])
      ensures tasks.cases == old(tasks.cases)
      ensures forall j | j in old(tasks.jobs) && j !in invalid :: j in tasks.jobs && tasks.jobs[j] == old(tasks.jobs[j])
      ensures forall j | j in tasks.jobs && tasks.jobs[j].state.Running? ::
          j in old(tasks.jobs) && tasks.jobs[j] == old(tasks.jobs[j])
    {
      parked := [];
      var i := 0;
      hide Apply;
      while i < |window|
        invariant 0 <= i <= |window| && |parked| == i
        invariant forall k | 0 <= k < i :: window[k] in invalid && parked[k] == ParkInvalid(window[k])
        invariant State() == Fold(Apply, old(State()), parked)
        invariant forall k | i <= k < |window| :: window[k] in tasks.jobs && tasks.jobs[window[k]].state.Queued?
        invariant tasks.cases == old(tasks.cases)
        invariant forall j | j in old(tasks.jobs) && j !in invalid ::
            j in tasks.jobs && tasks.jobs[j] == old(tasks.jobs[j])
        invariant forall j | j in tasks.jobs && tasks.jobs[j].state.Running? ::
            j in old(tasks.jobs) && tasks.jobs[j] == old(tasks.jobs[j])
      {
        if window[i] !in invalid { return Some(window[i]), parked; }
        ghost var was := State();
        var j := tasks.jobs[window[i]];
        tasks := tasks.(jobs := tasks.jobs[window[i] := j.(state := Waiting, error := InputInvalid, owner := None,
            lease := None)]);
        assert State() == Park(was, window[i]);
        ParkTrace(old(State()), parked, window[i]);
        parked := parked + [ParkInvalid(window[i])];
        i := i + 1;
      }
      return None, parked;
    }

    method SlotTaken() returns (yes: bool)
      ensures yes <==> Taken(State())
    {
      if exists q | q in slot.launches :: !slot.launches[q].state.Finished? {
        var q :| q in slot.launches && !slot.launches[q].state.Finished?;
        assert Unfinished(slot, q);
        return true;
      }
      if exists j | j in tasks.jobs :: tasks.jobs[j].state.Running? &&
           (Id(j, tasks.jobs[j].attempt) in exec.resources ==> !exec.resources[Id(j, tasks.jobs[j].attempt)].settled) {
        var j :| j in tasks.jobs && tasks.jobs[j].state.Running? &&
                 (Id(j, tasks.jobs[j].attempt) in exec.resources ==>
                     !exec.resources[Id(j, tasks.jobs[j].attempt)].settled);
        assert RunsUnsettled(State(), j);
        return true;
      }
      return false;
    }

    // `request` is the generated identifier, `window` the queued jobs selected for this contract.
    method DispatchOne(request: string, allowed: bool, contract: string, window: seq<string>, invalid: set<string>)
      returns (r: DispatchState, ghost trace: seq<Event>)
      requires request !in slot.launches
      requires forall i | 0 <= i < |window| ::
                 window[i] in tasks.jobs && tasks.jobs[window[i]].state.Queued?
                     && CaseAllows(State(), tasks.jobs[window[i]])
      requires forall i, j | 0 <= i < j < |window| :: window[i] != window[j]
      modifies this
      ensures State() == Fold(Apply, old(State()), trace)
      ensures r.Disabled? <==> !allowed
      ensures r.Occupied? <==> allowed && Taken(old(State()))
      ensures r.Launched? ==> r.job in window && r.job !in invalid && Unfinished(slot, request) &&
                              slot.launches[request] == Launch(Launching, r.job, old(tasks.jobs[r.job]).input, contract)
      ensures !r.Launched? ==> slot == old(slot)
      ensures DispatchesFirst(window, invalid, request, contract, r, trace)
    {
      trace := [];
      hide Apply, DispatchesFirst, Parks;
      NothingDispatched(window, invalid, request, contract);
      if !allowed { return Disabled, trace; }
      var busy := SlotTaken();
      if busy { return Occupied, trace; }
      var row;
      row, trace := NextCandidate(window, invalid);
      DispatchedAfter(window, invalid, request, contract, trace);
      if row.None? { return Idle, trace; }
      var job := row.value;
      ghost var was := State();
      slot := slot.(launches := slot.launches[request := Launch(Launching, job, tasks.jobs[job].input, contract)]);
      assert State() == Dispatch(was, request, job, contract, true, true) by {
        ParkedRunNothing(old(State()), was);
      }
      DispatchTrace(old(State()), trace, request, job, contract);
      trace := trace + [Broker.DispatchOne(request, job, contract, true, true)];
      return Launched(job), trace;
    }

    // The committed answer of the external launch request.
    method AnswerLaunch(request: string, accepted: bool)
      modifies this`slot
      ensures State() == LaunchAnswer(old(State()), request, accepted)
    {
      if request !in slot.launches || !slot.launches[request].state.Launching? { return; }
      slot := slot.(launches := slot.launches[request := slot.launches[request].(state := if accepted
          then Accepted else Unresolved)]);
    }

    // `check_claim`: the request is the one unfinished launch.
    method CheckClaim(request: string) returns (ok: bool)
      modifies this`slot
      ensures ok <==> Unfinished(old(slot), request) && !exists q :: q in old(slot).launches && q != request
                                                                     && Unfinished(old(slot), q)
      ensures State() == Broker.CheckClaim(old(State()), request)
    {
      var rest := slot.launches.Keys;
      ok := request in slot.launches && !slot.launches[request].state.Finished?;
      while rest != {} && ok
        invariant rest <= slot.launches.Keys
        invariant ok ==> Unfinished(slot, request) && forall q | q in slot.launches && q !in rest && q != request ::
                         !Unfinished(slot, q)
        invariant !ok ==> !Unfinished(slot, request) || exists q :: q in slot.launches && q != request
                                                                    && Unfinished(slot, q)
        decreases rest
      {
        var q :| q in rest;
        rest := rest - {q};
        if q != request && !slot.launches[q].state.Finished? {
          assert Unfinished(slot, q);
          ok := false;
        }
      }
      if ok { slot := slot.(checked := slot.checked + {request}); }
    }

    // Park only the still-current task, and only if it was never started.
    method BlockUnstarted(p: Params, now: int) returns (blocked: bool)
      modifies this`tasks
      ensures blocked <==> BoundTask(old(State()), p, now) && Id(p.job, p.attempt) !in exec.starts
      ensures State() == Broker.BlockUnstarted(old(State()), p, now)
    {
      var bound := VerifyBoundTask(p, now);
      if !bound || Id(p.job, p.attempt) in exec.starts { return false; }
      tasks := tasks.(jobs := tasks.jobs[p.job := tasks.jobs[p.job].(state := Waiting, error := BudgetBlocked,
          owner := None, lease := None)]);
      return true;
    }

    // Requeue a parked job; a budget denial without a start also releases its own launch.
    method Recover(job: string, valid: bool) returns (ok: bool)
      modifies this`tasks, this`slot
      ensures ok <==> Recoverable(old(State()), job, valid)
      ensures State() == Broker.Recover(old(State()), job, valid)
    {
      if job !in tasks.jobs || !valid { return false; }
      var j := tasks.jobs[job];
      var g := Id(job, j.attempt);
      if !j.state.Waiting? || !(j.error.InputInvalid? || j.error.BudgetBlocked?) || j.owner.Some? || j.lease.Some? {
        return false;
      }
      if j.caseId !in tasks.cases || !tasks.cases[j.caseId].executable || tasks.cases[j.caseId].round != j.round {
        return false;
      }
      if j.error.BudgetBlocked? && g in exec.starts { return false; }
      slot := slot.(launches := map q | q in slot.launches ::
        if j.error.BudgetBlocked? && g !in exec.starts && ClaimNames(auth, q, g)
            then slot.launches[q].(state := Finished) else slot.launches[q]);
      tasks := tasks.(jobs := tasks.jobs[job := j.(state := Queued, error := NoError)]);
      return true;
    }

    method Claim(c: ClaimRequest, r: ClaimReads) returns (answer: ClaimAnswer)
      modifies this
      ensures answer == ClaimReply(old(State()), c, r)
      ensures State() == Broker.Claim(old(State()), c, r)
    {
      if c.request !in slot.checked || c.request !in slot.launches || !r.allowed { return ClaimRejected; }
      var l := slot.launches[c.request];
      if l.contract != r.contract || l.job !in tasks.jobs || tasks.jobs[l.job].input != l.input {
        return ClaimRejected;
      }
      if c.request in auth.receipts {
        var prior := auth.receipts[c.request];
        if prior.digest != c.digest || prior.key != c.key { return ClaimRejected; }
        if prior.task.None? { return NoTask; }
        var task := prior.task.value;
        if task.job != l.job || task.input != l.input { return ClaimRejected; }
        var bound := VerifyBoundTask(ParamsOf(task, TokenOf(c)), r.now);
        return if bound then Assigned(task, TokenOf(c)) else ClaimRejected;
      }
      var j := tasks.jobs[l.job];
      var open := j.state.Queued? && j.caseId in tasks.cases && tasks.cases[j.caseId].executable &&
                  tasks.cases[j.caseId].round == j.round && r.selectable;
      if !open || !r.inputOk {
        if open {
          tasks := tasks.(jobs := tasks.jobs[l.job := j.(state := Waiting, error := InputInvalid, owner := None,
              lease := None)]);
        }
        auth := auth.(receipts := auth.receipts[c.request := ClaimReceipt(c.digest, c.key, None)]);
        return NoTask;
      }
      var task := Task(l.job, j.attempt + 1, j.caseId, j.round, j.input);
      if Id(l.job, task.attempt) in auth.grants { return ClaimRejected; }
      var lease := r.now + LEASE_SECONDS;
      tasks := tasks.(jobs := tasks.jobs[l.job := j.(state := Running, attempt := task.attempt, owner := Some(r.owner),
          lease := Some(lease))]);
      var grant := Grant(TokenOf(c), j.round, j.input, r.owner, r.now, Min(lease, r.now + GRANT_SECONDS), false);
      auth := Auth(auth.receipts[c.request := ClaimReceipt(c.digest, c.key, Some(task))],
          auth.grants[Id(l.job, task.attempt) := grant]);
      return Assigned(task, TokenOf(c));
    }

    method VerifyBoundTask(p: Params, now: int) returns (ok: bool)
      ensures ok <==> BoundTask(State(), p, now)
    {
      var g := Id(p.job, p.attempt);
      if g !in auth.grants { return false; }
      var r := auth.grants[g];
      if r.token != p.token || r.revoked || !(r.created <= now < r.expires) { return false; }
      if r.round != p.round || r.input != p.input || p.job !in tasks.jobs { return false; }
      var j := tasks.jobs[p.job];
      if j.caseId != p.caseId || !j.state.Running? || j.caseId !in tasks.cases || !tasks.cases[j.caseId].executable {
        return false;
      }
      if j.attempt != p.attempt || j.round != r.round || j.input != r.input || j.owner != Some(r.owner)
          || tasks.cases[j.caseId].round != r.round {
        return false;
      }
      return j.lease.Some? && j.lease.value > now;
    }

    method ValidateRunning(g: GrantId, contract: string, budgetActive: bool) returns (ok: bool)
      ensures ok <==> RunningValid(State(), g, contract, budgetActive)
    {
      if g in exec.resources {
        var row := exec.resources[g];
        if row.settled || (row.claim in slot.launches && slot.launches[row.claim].state.Finished?) { return false; }
      }
      if g in exec.units && exec.units[g].exit.Some? { return false; }
      return g in exec.starts && exec.starts[g].contract == contract && budgetActive;
    }

    // The start row and the captured resources commit together or not at all.
    method Authorize(p: Params, request: string, claim: string, r: StartReads) returns (ok: bool)
      modifies this`exec
      ensures ok <==> StartAllowed(old(State()), p, request, claim, r)
      ensures State() == Broker.Authorize(old(State()), p, request, claim, r)
    {
      if !r.allowed { return false; }
      var bound := VerifyBoundTask(p, r.now);
      if !bound || !r.inputOk { return false; }
      var g := Id(p.job, p.attempt);
      if g in exec.starts || exists h | h in exec.starts :: exec.starts[h].request == request { return false; }
      if !ClaimNames(auth, claim, g) || exists q | q in auth.receipts :: ClaimNames(auth, q, g) && q != claim {
        return false;
      }
      var task := auth.receipts[claim].task.value;
      if task.round != p.round || task.input != p.input || exists h | h in exec.resources ::
          exec.resources[h].claim == claim {
        return false;
      }
      if !r.budgetOk { return false; }
      exec := exec.(starts := exec.starts[g := Start(request, r.now, r.contract)],
          resources := exec.resources[g := Resource(claim, false)]);
      return true;
    }

    method Renew(p: Params, request: string, digest: string, r: RenewReads) returns (answer: RenewAnswer)
      modifies this
      ensures answer == RenewReply(old(State()), p, request, digest, r)
      ensures State() == Broker.Renew(old(State()), p, request, digest, r)
    {
      var g := Id(p.job, p.attempt);
      if !r.allowed { return RenewRejected; }
      var bound := VerifyBoundTask(p, r.now);
      if !bound { return RenewRejected; }
      if g in exec.starts {
        var running := ValidateRunning(g, r.contract, r.budgetActive);
        if !running { return RenewRejected; }
      }
      if request in stored {
        var prior := stored[request];
        return if prior.digest != digest || prior.grant != g || prior.expires.None?
            then RenewRejected else Renewed(prior.expires.value);
      }
      var lease := tasks.jobs[p.job].lease.value;
      if g in exec.starts {
        var started := exec.starts[g].at;
        if !(started <= r.now < started + LIFETIME_SECONDS) { return RenewRejected; }
        lease := Min(r.now + LEASE_SECONDS, started + LIFETIME_SECONDS);
      }
      var expires := Min(lease, r.now + GRANT_SECONDS);
      tasks := tasks.(jobs := tasks.jobs[p.job := tasks.jobs[p.job].(lease := Some(lease))]);
      auth := auth.(grants := auth.grants[g := auth.grants[g].(expires := expires)]);
      stored, effects := stored[request := Reply(digest, g, Some(expires))], effects + [request];
      return Renewed(expires);
    }

    // A report is accepted once per attempt; a repeat needs a valid grant only.
    method Report(p: Params, request: string, digest: string, report: string, valid: bool,
        now: int) returns (answer: ReportAnswer)
      modifies this
      ensures answer == ReportReply(old(State()), p, request, digest, report, valid, now)
      ensures State() == Broker.Report(old(State()), p, request, digest, report, valid, now)
    {
      var g := Id(p.job, p.attempt);
      if g !in auth.grants || auth.grants[g].token != p.token || auth.grants[g].revoked
          || !(auth.grants[g].created <= now < auth.grants[g].expires) {
        return ReportRejected;
      }
      if request in stored {
        var prior := stored[request];
        return if prior.digest != digest || prior.grant != g || prior.expires.Some?
            then ReportRejected else ReportAccepted;
      }
      var bound := VerifyBoundTask(p, now);
      if !bound || !valid || (g in reports && reports[g] != report) { return ReportRejected; }
      reports := reports[g := report];
      stored, effects := stored[request := Reply(digest, g, None)], effects + [request];
      return ReportAccepted;
    }

    // `inspect_settlement`; cancelling queued actions commits in every case but an unverified exit.
    method InspectSettlement(g: GrantId, boardOk: bool, at: int) returns (settled: bool)
      modifies this`remote
      ensures settled <==> Settles(old(State()), g, boardOk, at)
      ensures State() == Inspected(old(State()), g, at)
    {
      if g !in exec.starts || g !in auth.grants || g !in exec.resources || g !in exec.units { return false; }
      if exec.units[g].exit.None? || exec.units[g].claim != exec.resources[g].claim { return false; }
      remote := Remote.CancelUnstarted(remote, g, at);
      if exists r | r in remote.queue.actions :: remote.queue.actions[r].grant == g && Remote.Unsettled(remote, r) {
        return false;
      }
      return boardOk;
    }

    method FinishOne(q: string, g: GrantId, boardOk: bool, at: int) returns (done: bool)
      requires g in exec.units && exec.units[g].claim == q && exec.units[g].exit.Some?
      modifies this
      ensures State() == Broker.FinishObserved(old(State()), q, g, boardOk, at)
      ensures done <==> Unfinished(old(slot), q) && !Unfinished(slot, q)
      ensures done ==> slot == old(slot).(launches := old(slot).launches[q :=
                       old(slot).launches[q].(state := Finished)])
      ensures !done ==> slot == old(slot)
      ensures exec.units == old(exec.units)
    {
      if q !in slot.launches || slot.launches[q].state.Finished? { return false; }
      var settled := InspectSettlement(g, boardOk, at);
      if !settled { return false; }
      exec := exec.(resources := exec.resources[g := exec.resources[g].(settled := true)]);
      slot := slot.(launches := slot.launches[q := slot.launches[q].(state := Finished)]);
      return true;
    }

    method Reconcile(g: GrantId, boardOk: bool, contextOk: bool, outcome: JobState, at: int)
      requires g in exec.units && exec.units[g].exit.Some?
      modifies this
      ensures State() == Broker.Reconcile(old(State()), g, boardOk, contextOk, outcome, at)
      ensures slot == old(slot) && exec.units == old(exec.units)
    {
      if g !in auth.grants || g.job !in tasks.jobs { return; }
      var settled := InspectSettlement(g, boardOk, at);
      if !settled { return; }
      exec := exec.(resources := exec.resources[g := exec.resources[g].(settled := true)]);
      var j, r := tasks.jobs[g.job], auth.grants[g];
      var current := j.attempt == g.attempt && j.round == r.round && j.input == r.input && contextOk &&
                     j.caseId in tasks.cases && tasks.cases[j.caseId].executable
                         && tasks.cases[j.caseId].round == j.round;
      if current && j.state.Running? && j.owner == Some(r.owner) && (outcome.Failed? || outcome.Waiting?
          || outcome.Succeeded?) {
        tasks := tasks.(jobs := tasks.jobs[g.job := j.(state := outcome, owner := None, lease := None,
            error := OtherError)]);
      }
    }

    method FinishCandidate(c: Candidate, at: int) returns (done: bool)
      requires c.grant in exec.units && exec.units[c.grant].claim == c.request && exec.units[c.grant].exit.Some?
      modifies this
      ensures State() == Fold(Apply, old(State()), CandidateSteps(old(State()), c, at))
      ensures |Open(slot)| == |Open(old(slot))| - (if done then 1 else 0)
      ensures exec.units == old(exec.units)
    {
      hide Apply, Broker.FinishObserved, Broker.Reconcile, Open, CandidateSteps, Fold;
      done := FinishOne(c.request, c.grant, c.boardOk, at);
      CandidateFold(old(State()), c, at, State());
      if done {
        FinishCounts(old(slot), slot, c.request);
        Reconcile(c.grant, c.boardOk, c.contextOk, c.outcome, at);
      }
    }

    /** `finish_observed`: settle, finish and reconcile each candidate in its own transactions. The
        reported number is exactly how many launches were finished. */
    method FinishObserved(candidates: seq<Candidate>, at: int) returns (finished: nat)
      requires forall i | 0 <= i < |candidates| ::
                 candidates[i].grant in exec.units && exec.units[candidates[i].grant].claim == candidates[i].request &&
                 exec.units[candidates[i].grant].exit.Some?
      modifies this
      ensures State() == Fold(Apply, old(State()), FinishTrace(old(State()), candidates, at))
      ensures |Open(slot)| == |Open(old(slot))| - finished
    {
      finished := 0;
      var i := 0;
      assert candidates[..0] == [];
      hide Apply, Open, CandidateSteps;
      while i < |candidates|
        invariant 0 <= i <= |candidates| && exec.units == old(exec.units)
        invariant State() == Fold(Apply, old(State()), FinishTrace(old(State()), candidates[..i], at))
        invariant |Open(slot)| == |Open(old(slot))| - finished
      {
        ghost var before := FinishTrace(old(State()), candidates[..i], at);
        assert candidates[..i + 1][..i] == candidates[..i];
        FoldJoin(Apply, old(State()), before, CandidateSteps(State(), candidates[i], at));
        hide Fold;
        var done := FinishCandidate(candidates[i], at);
        if done { finished := finished + 1; }
        i := i + 1;
      }
      assert candidates[..i] == candidates;
    }

    /** `reclaim_unstarted_launches`: expired, never started claims return to the queue. */
    method ReclaimUnstarted(rows: seq<string>, now: int) returns (reclaimed: nat, ghost trace: seq<Event>)
      modifies this
      ensures State() == Fold(Apply, old(State()), trace)
      ensures |trace| == |rows| && forall i | 0 <= i < |rows| :: trace[i] == ReclaimLaunch(rows[i], now)
      ensures |Open(slot)| == |Open(old(slot))| - reclaimed
      ensures auth == old(auth) && exec == old(exec) && remote == old(remote)
    {
      reclaimed, trace := 0, [];
      var i := 0;
      hide Apply, Reclaim, Open;
      while i < |rows|
        invariant 0 <= i <= |rows|
        invariant State() == Fold(Apply, old(State()), trace)
        invariant |trace| == i && forall k | 0 <= k < i :: trace[k] == ReclaimLaunch(rows[k], now)
        invariant |Open(slot)| == |Open(old(slot))| - reclaimed
        invariant auth == old(auth) && exec == old(exec) && remote == old(remote)
      {
        var q := rows[i];
        var done := ReclaimOne(q, now);
        ReclaimTrace(old(State()), trace, q, now);
        trace := trace + [ReclaimLaunch(q, now)];
        if done { reclaimed := reclaimed + 1; }
        i := i + 1;
      }
    }

    method ReclaimOne(q: string, now: int) returns (done: bool)
      modifies this`slot, this`tasks
      ensures State() == Reclaim(old(State()), q, now)
      ensures done <==> Reclaimable(old(State()), q, now)
      ensures |Open(slot)| == |Open(old(slot))| - (if done then 1 else 0)
    {
      if q !in slot.launches || slot.launches[q].state.Finished? || slot.launches[q].job !in tasks.jobs {
        return false;
      }
      var job := slot.launches[q].job;
      var j := tasks.jobs[job];
      if !j.state.Running? || j.lease.None? || j.lease.value >= now || Id(job, j.attempt) in exec.starts {
        return false;
      }
      tasks := tasks.(jobs := tasks.jobs[job := j.(state := Queued, owner := None, lease := None)]);
      slot := slot.(launches := slot.launches[q := slot.launches[q].(state := Finished)]);
      FinishCounts(old(slot), slot, q);
      return true;
    }
  }

  // Parking queued jobs starts nothing.
  lemma ParkedRunNothing(s: State, t: State)
    requires t == s.(tasks := t.tasks)
    requires forall j | j in t.tasks.jobs ::
        t.tasks.jobs[j].state.Running? ==> j in s.tasks.jobs && s.tasks.jobs[j] == t.tasks.jobs[j]
    requires forall j | j in s.tasks.jobs :: !RunsUnsettled(s, j)
    ensures forall j | j in t.tasks.jobs :: !RunsUnsettled(t, j)
  {
    forall j | j in t.tasks.jobs ensures !RunsUnsettled(t, j) { assert j in s.tasks.jobs ==> !RunsUnsettled(s, j); }
  }
}
