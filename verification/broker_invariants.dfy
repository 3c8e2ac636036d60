/** What every interleaving of the broker keeps. */
module BrokerInvariants {
  import opened Options
  import opened Broker
  import Remote = RemoteQueue

  // ---- the invariant ------------------------------------------------------------------------

  // The launch request a grant was claimed under.
  ghost function ClaimOf(auth: Auth, g: GrantId): string
    requires g in auth.grants
  {
    auth.grants[g].token.request
  }

  // The attempt is over: no request bearing its token can act again.
  predicate Dead(tasks: Tasks, g: GrantId) {
    !(g.job in tasks.jobs && tasks.jobs[g.job].state.Running? && tasks.jobs[g.job].attempt == g.attempt)
  }

  predicate Settled(exec: Exec, g: GrantId) {
    g in exec.resources && exec.resources[g].settled
  }

  ghost predicate ReceiptOk(slot: Slot, auth: Auth, q: string) {
    q in auth.receipts && auth.receipts[q].task.Some? ==>
      var t := auth.receipts[q].task.value;
      q in slot.launches && slot.launches[q].job == t.job &&
      Id(t.job, t.attempt) in auth.grants && ClaimOf(auth, Id(t.job, t.attempt)) == q
  }

  ghost predicate GrantOk(tasks: Tasks, auth: Auth, g: GrantId) {
    g in auth.grants ==>
      ClaimNames(auth, ClaimOf(auth, g), g) && g.job in tasks.jobs && g.attempt <= tasks.jobs[g.job].attempt
  }

  // Launches, claim receipts and grants name each other one to one.
  ghost predicate Linked(slot: Slot, tasks: Tasks, auth: Auth) {
    && slot.checked <= slot.launches.Keys && auth.receipts.Keys <= slot.launches.Keys
    && (forall q | q in auth.receipts :: ReceiptOk(slot, auth, q))
    && (forall g | g in auth.grants :: GrantOk(tasks, auth, g))
    && (forall j | j in tasks.jobs && tasks.jobs[j].state.Running? :: Id(j, tasks.jobs[j].attempt) in auth.grants)
  }

  ghost predicate Captured(auth: Auth, exec: Exec) {
    && exec.starts.Keys == exec.resources.Keys && exec.starts.Keys <= auth.grants.Keys
    && forall g | g in exec.resources :: exec.resources[g].claim == ClaimOf(auth, g)
  }

  ghost predicate OneSlot(slot: Slot) {
    forall p, q | Unfinished(slot, p) && Unfinished(slot, q) :: p == q
  }

  // A finished launch has released its task: settled when it was started, dead otherwise.
  ghost predicate Released(tasks: Tasks, exec: Exec, g: GrantId) {
    if g in exec.starts then Settled(exec, g) else Dead(tasks, g)
  }

  ghost predicate HeldOk(slot: Slot, tasks: Tasks, auth: Auth, exec: Exec, g: GrantId)
    requires g in auth.grants
  {
    if Unfinished(slot, ClaimOf(auth, g)) then g.job in tasks.jobs && tasks.jobs[g.job].attempt == g.attempt
    else Released(tasks, exec, g)
  }

  ghost predicate SlotHeld(slot: Slot, tasks: Tasks, auth: Auth, exec: Exec) {
    && (forall g | g in auth.grants :: HeldOk(slot, tasks, auth, exec, g))
    && (forall q | q in slot.launches && !Unfinished(slot, q) :: q in auth.receipts)
  }

  const BOUND := LEASE_SECONDS + LIFETIME_SECONDS

  ghost predicate LeaseOk(tasks: Tasks, auth: Auth, exec: Exec, g: GrantId)
    requires g in auth.grants
  {
    var r := auth.grants[g];
    && r.expires <= r.created + BOUND
    && (g in exec.starts ==> r.created <= exec.starts[g].at < r.created + LEASE_SECONDS)
    && (!Dead(tasks, g) ==>
          && tasks.jobs[g.job].lease.Some?
          && r.expires <= tasks.jobs[g.job].lease.value <= r.created + BOUND
          && (g !in exec.starts ==> tasks.jobs[g.job].lease.value == r.created + LEASE_SECONDS))
  }

  ghost predicate Leases(tasks: Tasks, auth: Auth, exec: Exec) {
    forall g | g in auth.grants :: LeaseOk(tasks, auth, exec, g)
  }

  ghost predicate Core(slot: Slot, tasks: Tasks, auth: Auth, exec: Exec) {
    Linked(slot, tasks, auth) && Captured(auth, exec) && OneSlot(slot) && SlotHeld(slot, tasks, auth, exec)
        && Leases(tasks, auth, exec)
  }

  // A settled grant has no remote action that is queued or unaccounted for.
  ghost predicate Quiet(exec: Exec, remote: Remote.State) {
    forall g, r | Settled(exec, g) && r in remote.queue.actions && remote.queue.actions[r].grant == g ::
      !remote.queue.actions[r].state.Queued? && !Remote.Loose(remote, r)
  }

  ghost predicate Replayed(replies: Replies) {
    && (forall i, j | 0 <= i < j < |replies.effects| :: replies.effects[i] != replies.effects[j])
    && (forall i | 0 <= i < |replies.effects| :: replies.effects[i] in replies.stored)
  }

  ghost predicate Inv(s: State) {
    Core(s.slot, s.tasks, s.auth, s.exec) && Quiet(s.exec, s.remote) && Replayed(s.replies) && Remote.Inv(s.remote)
  }

  // ---- building blocks ----------------------------------------------------------------------------

  function WithJob(tasks: Tasks, job: string, row: Job): Tasks {
    tasks.(jobs := tasks.jobs[job := row])
  }

  // A job leaves running, or changes while it is not running, under the same attempt.
  lemma StopKeeps(slot: Slot, tasks: Tasks, auth: Auth, exec: Exec, job: string, row: Job)
    requires Core(slot, tasks, auth, exec) && job in tasks.jobs && row.attempt == tasks.jobs[job].attempt
        && !row.state.Running?
    ensures Core(slot, WithJob(tasks, job, row), auth, exec)
  {
    hide OneSlot, Captured;
    var t := WithJob(tasks, job, row);
    forall g | g in auth.grants ensures GrantOk(t, auth, g) && LeaseOk(t, auth, exec, g)
        && HeldOk(slot, t, auth, exec, g) {
      assert GrantOk(tasks, auth, g) && LeaseOk(tasks, auth, exec, g) && HeldOk(slot, tasks, auth, exec, g);
    }
  }

  // Launch rows change without any being reopened; each newly finished one has released its task.
  lemma LaunchesKeep(slot: Slot, tasks: Tasks, auth: Auth, exec: Exec, next: map<string, Launch>)
    requires Core(slot, tasks, auth, exec) && next.Keys == slot.launches.Keys
    requires forall q | q in next ::
               next[q] == slot.launches[q].(state := next[q].state) && (slot.launches[q].state.Finished? ==>
                   next[q].state.Finished?)
    requires forall q | q in next && next[q].state.Finished? && Unfinished(slot, q) ::
               q in auth.receipts && forall g | g in auth.grants && ClaimOf(auth, g) == q :: Released(tasks, exec, g)
    ensures Core(slot.(launches := next), tasks, auth, exec)
  {
    hide Captured, Leases;
    var t := slot.(launches := next);
    forall q | q in auth.receipts ensures ReceiptOk(t, auth, q) { assert ReceiptOk(slot, auth, q); }
    forall g | g in auth.grants ensures HeldOk(t, tasks, auth, exec, g) {
      assert HeldOk(slot, tasks, auth, exec, g) && GrantOk(tasks, auth, g);
    }
    forall q | Unfinished(t, q) ensures Unfinished(slot, q) {}
  }

  lemma SettleCore(slot: Slot, tasks: Tasks, auth: Auth, exec: Exec, g: GrantId)
    requires Core(slot, tasks, auth, exec) && g in exec.resources
    ensures Core(slot, tasks, auth, exec.(resources := exec.resources[g := exec.resources[g].(settled := true)]))
  {
    hide Linked, OneSlot;
    var t := exec.(resources := exec.resources[g := exec.resources[g].(settled := true)]);
    assert Captured(auth, t) by { assert t.resources.Keys == exec.resources.Keys; }
    hide Captured;
    forall h | h in auth.grants ensures LeaseOk(tasks, auth, t, h) && HeldOk(slot, tasks, auth, t, h) {
      assert LeaseOk(tasks, auth, exec, h) && HeldOk(slot, tasks, auth, exec, h);
    }
  }

  // Two grants claimed under one request are one grant.
  lemma ClaimIsInjective(slot: Slot, tasks: Tasks, auth: Auth, g: GrantId, h: GrantId)
    requires Linked(slot, tasks, auth) && g in auth.grants && h in auth.grants && ClaimOf(auth, g) == ClaimOf(auth, h)
    ensures g == h
  {
    assert GrantOk(tasks, auth, g) && GrantOk(tasks, auth, h);
  }

  lemma UnitsKeep(slot: Slot, tasks: Tasks, auth: Auth, exec: Exec, units: map<GrantId, Unit>)
    requires Core(slot, tasks, auth, exec)
    ensures Core(slot, tasks, auth, exec.(units := units))
  {
    hide Linked, OneSlot;
    var t := exec.(units := units);
    forall h | h in auth.grants ensures LeaseOk(tasks, auth, t, h) && HeldOk(slot, tasks, auth, t, h) {
      assert LeaseOk(tasks, auth, exec, h) && HeldOk(slot, tasks, auth, exec, h);
    }
  }

  // ---- transactions -------------------------------------------------------------------------------------

  lemma DispatchKeeps(s: State, q: string, job: string, contract: string, allowed: bool, selectable: bool)
    requires Inv(s)
    ensures Inv(Dispatch(s, q, job, contract, allowed, selectable))
  {
    var t := Dispatch(s, q, job, contract, allowed, selectable);
    if t != s {
      assert q !in s.slot.launches;
      hide Dispatch, Quiet, Replayed;
      forall p | Unfinished(t.slot, p) ensures p == q { assert !Unfinished(s.slot, p); }
      forall p | p in t.auth.receipts ensures ReceiptOk(t.slot, t.auth, p) { assert ReceiptOk(s.slot, s.auth, p); }
      forall g | g in t.auth.grants ensures HeldOk(t.slot, t.tasks, t.auth, t.exec, g) {
        assert HeldOk(s.slot, s.tasks, s.auth, s.exec, g) && GrantOk(s.tasks, s.auth, g);
        assert !Unfinished(s.slot, ClaimOf(s.auth, g));
      }
    }
  }

  lemma AnswerKeeps(s: State, q: string, accepted: bool)
    requires Inv(s)
    ensures Inv(LaunchAnswer(s, q, accepted))
  {
    if q in s.slot.launches && s.slot.launches[q].state.Launching? {
      var t := LaunchAnswer(s, q, accepted);
      assert t.slot.launches.Keys == s.slot.launches.Keys;
      LaunchesKeep(s.slot, s.tasks, s.auth, s.exec, t.slot.launches);
      hide Core, Quiet, Replayed;
    }
  }

  lemma StopJobKeeps(s: State, job: string, row: Job)
    requires Inv(s) && job in s.tasks.jobs && row.attempt == s.tasks.jobs[job].attempt && !row.state.Running?
    ensures Inv(SetJob(s, job, row))
  {
    StopKeeps(s.slot, s.tasks, s.auth, s.exec, job, row);
    hide Core, Quiet, Replayed;
  }

  lemma CheckKeeps(s: State, q: string)
    requires Inv(s)
    ensures Inv(CheckClaim(s, q))
  {
    var t := CheckClaim(s, q);
    if t != s {
      assert t.slot == s.slot.(checked := s.slot.checked + {q}) && q in s.slot.launches;
      hide CheckClaim, Quiet, Replayed, Captured, Leases;
      forall p | p in t.auth.receipts ensures ReceiptOk(t.slot, t.auth, p) { assert ReceiptOk(s.slot, s.auth, p); }
      forall g | g in t.auth.grants ensures HeldOk(t.slot, t.tasks, t.auth, t.exec, g) {
        assert HeldOk(s.slot, s.tasks, s.auth, s.exec, g);
      }
      forall p | Unfinished(t.slot, p) ensures Unfinished(s.slot, p) {}
    }
  }

  // A claim that assigns nothing stores an empty receipt.
  lemma EmptyReceiptKeeps(slot: Slot, tasks: Tasks, auth: Auth, exec: Exec, q: string, row: ClaimReceipt)
    requires Core(slot, tasks, auth, exec) && q in slot.launches && q !in auth.receipts && row.task.None?
    ensures Core(slot, tasks, auth.(receipts := auth.receipts[q := row]), exec)
  {
    hide OneSlot;
    var t := auth.(receipts := auth.receipts[q := row]);
    forall p | p in t.receipts ensures ReceiptOk(slot, t, p) { if p != q { assert ReceiptOk(slot, auth, p); } }
    forall g | g in t.grants ensures GrantOk(tasks, t, g) && LeaseOk(tasks, t, exec, g)
        && HeldOk(slot, tasks, t, exec, g) {
      assert GrantOk(tasks, auth, g) && LeaseOk(tasks, auth, exec, g) && HeldOk(slot, tasks, auth, exec, g);
    }
  }

  // An assignment: the next attempt of the bound job, under the one unfinished launch.
  ghost function AssignedTasks(tasks: Tasks, job: string, r: ClaimReads): Tasks
    requires job in tasks.jobs
  {
    var j := tasks.jobs[job];
    WithJob(tasks, job, j.(state := Running, attempt := j.attempt + 1, owner := Some(r.owner),
        lease := Some(r.now + LEASE_SECONDS)))
  }

  ghost function AssignedAuth(auth: Auth, job: string, j: Job, c: ClaimRequest, r: ClaimReads): Auth {
    Auth(auth.receipts[c.request := ClaimReceipt(c.digest, c.key, Some(NewTask(job, j)))],
         auth.grants[Id(job, j.attempt + 1) :=
           Grant(TokenOf(c), j.round, j.input, r.owner, r.now, Min(r.now + LEASE_SECONDS, r.now + GRANT_SECONDS),
               false)])
  }

  ghost predicate AssignPre(slot: Slot, tasks: Tasks, auth: Auth, exec: Exec, c: ClaimRequest, job: string) {
    && Core(slot, tasks, auth, exec) && c.request in slot.launches && c.request !in auth.receipts
    && job == slot.launches[c.request].job && job in tasks.jobs && !tasks.jobs[job].state.Running?
  }

  lemma AssignFresh(slot: Slot, tasks: Tasks, auth: Auth, exec: Exec, c: ClaimRequest, job: string)
    requires AssignPre(slot, tasks, auth, exec, c, job)
    ensures Id(job, tasks.jobs[job].attempt + 1) !in auth.grants && Id(job, tasks.jobs[job].attempt + 1) !in exec.starts
    ensures Unfinished(slot, c.request)
    ensures forall g | g in auth.grants :: ClaimOf(auth, g) != c.request && !Unfinished(slot, ClaimOf(auth, g))
  {
    var n := Id(job, tasks.jobs[job].attempt + 1);
    assert n in auth.grants ==> GrantOk(tasks, auth, n);
    assert Unfinished(slot, c.request);
    forall g | g in auth.grants ensures ClaimOf(auth, g) != c.request { assert GrantOk(tasks, auth, g); }
  }

  lemma AssignReceipt(slot: Slot, tasks: Tasks, auth: Auth, c: ClaimRequest, r: ClaimReads, job: string, p: string)
    requires job in tasks.jobs && c.request in slot.launches && slot.launches[c.request].job == job
    requires Id(job, tasks.jobs[job].attempt + 1) !in auth.grants
    requires p != c.request ==> ReceiptOk(slot, auth, p)
    ensures ReceiptOk(slot, AssignedAuth(auth, job, tasks.jobs[job], c, r), p)
  {}

  lemma AssignGrant(tasks: Tasks, auth: Auth, c: ClaimRequest, r: ClaimReads, job: string, g: GrantId)
    requires job in tasks.jobs && c.request !in auth.receipts
    requires g != Id(job, tasks.jobs[job].attempt + 1) ==> GrantOk(tasks, auth, g)
    ensures GrantOk(AssignedTasks(tasks, job, r), AssignedAuth(auth, job, tasks.jobs[job], c, r), g)
  {}

  lemma AssignLinked(slot: Slot, tasks: Tasks, auth: Auth, exec: Exec, c: ClaimRequest, r: ClaimReads, job: string)
    requires AssignPre(slot, tasks, auth, exec, c, job)
    ensures Linked(slot, AssignedTasks(tasks, job, r), AssignedAuth(auth, job, tasks.jobs[job], c, r))
  {
    AssignFresh(slot, tasks, auth, exec, c, job);
    var t, a := AssignedTasks(tasks, job, r), AssignedAuth(auth, job, tasks.jobs[job], c, r);
    hide SlotHeld, Leases, Captured, OneSlot, ReceiptOk, GrantOk;
    forall p | p in a.receipts ensures ReceiptOk(slot, a, p) { AssignReceipt(slot, tasks, auth, c, r, job, p); }
    forall g | g in a.grants ensures GrantOk(t, a, g) { AssignGrant(tasks, auth, c, r, job, g); }
  }

  lemma AssignOther(slot: Slot, tasks: Tasks, auth: Auth, exec: Exec, c: ClaimRequest, r: ClaimReads, job: string,
      g: GrantId)
    requires job in tasks.jobs && g in auth.grants && g != Id(job, tasks.jobs[job].attempt + 1)
        && !tasks.jobs[job].state.Running?
    requires !Unfinished(slot, ClaimOf(auth, g)) && HeldOk(slot, tasks, auth, exec, g) && LeaseOk(tasks, auth, exec, g)
    requires g.job == job ==> g.attempt <= tasks.jobs[job].attempt
    ensures HeldOk(slot, AssignedTasks(tasks, job, r), AssignedAuth(auth, job, tasks.jobs[job], c, r), exec, g)
    ensures LeaseOk(AssignedTasks(tasks, job, r), AssignedAuth(auth, job, tasks.jobs[job], c, r), exec, g)
  {}

  lemma AssignHeld(slot: Slot, tasks: Tasks, auth: Auth, exec: Exec, c: ClaimRequest, r: ClaimReads, job: string,
      g: GrantId)
    requires AssignPre(slot, tasks, auth, exec, c, job) && g in AssignedAuth(auth, job, tasks.jobs[job], c, r).grants
    ensures HeldOk(slot, AssignedTasks(tasks, job, r), AssignedAuth(auth, job, tasks.jobs[job], c, r), exec, g)
    ensures LeaseOk(AssignedTasks(tasks, job, r), AssignedAuth(auth, job, tasks.jobs[job], c, r), exec, g)
  {
    AssignFresh(slot, tasks, auth, exec, c, job);
    if g != Id(job, tasks.jobs[job].attempt + 1) {
      assert GrantOk(tasks, auth, g) && HeldOk(slot, tasks, auth, exec, g) && LeaseOk(tasks, auth, exec, g);
      hide Core, Linked, Captured, SlotHeld, Leases, OneSlot, GrantOk;
      AssignOther(slot, tasks, auth, exec, c, r, job, g);
    }
    hide Core;
  }

  lemma AssignCaptured(slot: Slot, tasks: Tasks, auth: Auth, exec: Exec, c: ClaimRequest, r: ClaimReads, job: string)
    requires AssignPre(slot, tasks, auth, exec, c, job)
    ensures Captured(AssignedAuth(auth, job, tasks.jobs[job], c, r), exec)
    ensures forall q | q in slot.launches && !Unfinished(slot, q) ::
        q in AssignedAuth(auth, job, tasks.jobs[job], c, r).receipts
  {
    AssignFresh(slot, tasks, auth, exec, c, job);
    hide Linked, Leases, OneSlot, HeldOk;
  }

  lemma AssignKeeps(slot: Slot, tasks: Tasks, auth: Auth, exec: Exec, c: ClaimRequest, r: ClaimReads, job: string)
    requires AssignPre(slot, tasks, auth, exec, c, job)
    ensures Core(slot, AssignedTasks(tasks, job, r), AssignedAuth(auth, job, tasks.jobs[job], c, r), exec)
  {
    var t, a := AssignedTasks(tasks, job, r), AssignedAuth(auth, job, tasks.jobs[job], c, r);
    AssignLinked(slot, tasks, auth, exec, c, r, job);
    AssignCaptured(slot, tasks, auth, exec, c, r, job);
    hide HeldOk, LeaseOk, Linked, Captured, OneSlot, AssignedTasks, AssignedAuth;
    forall g | g in a.grants ensures HeldOk(slot, t, a, exec, g) && LeaseOk(t, a, exec, g) {
      AssignHeld(slot, tasks, auth, exec, c, r, job, g);
    }
  }

  // What a successful first claim does, by case.
  lemma ClaimEffect(s: State, c: ClaimRequest, r: ClaimReads)
    requires !ClaimReply(s, c, r).ClaimRejected? && c.request !in s.auth.receipts
    ensures c.request in s.slot.launches && s.slot.launches[c.request].job in s.tasks.jobs
    ensures var job := s.slot.launches[c.request].job; var t := Claim(s, c, r); var j := s.tasks.jobs[job];
            var empty := s.auth.(receipts := s.auth.receipts[c.request := ClaimReceipt(c.digest, c.key, None)]);
            if !Claimable(s, job, r) then t == s.(auth := empty)
            else if !r.inputOk then
              t == s.(auth := empty, tasks := WithJob(s.tasks, job, j.(state := Waiting, error := InputInvalid,
                  owner := None, lease := None)))
            else !j.state.Running? && t == s.(tasks := AssignedTasks(s.tasks, job, r),
                 auth := AssignedAuth(s.auth, job, j, c, r))
  {}

  lemma ClaimKeeps(s: State, c: ClaimRequest, r: ClaimReads)
    requires Inv(s)
    ensures Inv(Claim(s, c, r))
  {
    if !ClaimReply(s, c, r).ClaimRejected? && c.request !in s.auth.receipts {
      ClaimEffect(s, c, r);
      var job := s.slot.launches[c.request].job;
      var row := ClaimReceipt(c.digest, c.key, None);
      var t := Claim(s, c, r);
      hide Claim, ClaimReply, Core, Quiet, Replayed, Remote.Inv, AssignedTasks, AssignedAuth;
      if !Claimable(s, job, r) {
        EmptyReceiptKeeps(s.slot, s.tasks, s.auth, s.exec, c.request, row);
      } else if !r.inputOk {
        var parked := s.tasks.jobs[job].(state := Waiting, error := InputInvalid, owner := None, lease := None);
        StopKeeps(s.slot, s.tasks, s.auth, s.exec, job, parked);
        EmptyReceiptKeeps(s.slot, t.tasks, s.auth, s.exec, c.request, row);
      } else {
        AssignKeeps(s.slot, s.tasks, s.auth, s.exec, c, r, job);
      }
    }
  }

  lemma StartOne(slot: Slot, tasks: Tasks, auth: Auth, exec: Exec, g: GrantId, row: Start, h: GrantId)
    requires g in auth.grants && h in auth.grants && g !in exec.starts && !Dead(tasks, g)
    requires auth.grants[g].created <= row.at < auth.grants[g].expires
    requires LeaseOk(tasks, auth, exec, g) && HeldOk(slot, tasks, auth, exec, g) && LeaseOk(tasks, auth, exec, h)
        && HeldOk(slot, tasks, auth, exec, h)
    ensures LeaseOk(tasks, auth, WithStart(auth, exec, g, row), h) && HeldOk(slot, tasks, auth,
        WithStart(auth, exec, g, row), h)
  {}

  ghost function WithStart(auth: Auth, exec: Exec, g: GrantId, row: Start): Exec
    requires g in auth.grants
  {
    exec.(starts := exec.starts[g := row], resources := exec.resources[g := Resource(ClaimOf(auth, g), false)])
  }

  lemma StartCaptured(auth: Auth, exec: Exec, g: GrantId, row: Start)
    requires Captured(auth, exec) && g in auth.grants
    ensures Captured(auth, WithStart(auth, exec, g, row))
  {
    var t := WithStart(auth, exec, g, row);
    assert t.starts.Keys == exec.starts.Keys + {g} == t.resources.Keys;
  }

  lemma StartCore(slot: Slot, tasks: Tasks, auth: Auth, exec: Exec, g: GrantId, row: Start)
    requires Core(slot, tasks, auth, exec) && g in auth.grants && g !in exec.starts && !Dead(tasks, g)
    requires auth.grants[g].created <= row.at < auth.grants[g].expires
    ensures Core(slot, tasks, auth, WithStart(auth, exec, g, row))
  {
    var t := WithStart(auth, exec, g, row);
    hide Linked, OneSlot, LeaseOk, HeldOk, Captured, Dead, ClaimOf;
    StartCaptured(auth, exec, g, row);
    forall h | h in auth.grants ensures LeaseOk(tasks, auth, t, h) && HeldOk(slot, tasks, auth, t, h) {
      StartOne(slot, tasks, auth, exec, g, row, h);
    }
  }

  // Quiet depends on the settled grants and on the queue only.
  lemma QuietFrame(exec: Exec, exec': Exec, remote: Remote.State)
    requires Quiet(exec, remote) && forall g | Settled(exec', g) :: Settled(exec, g)
    ensures Quiet(exec', remote)
  {}

  lemma AuthorizeKeeps(s: State, p: Params, q: string, claim: string, r: StartReads)
    requires Inv(s)
    ensures Inv(Authorize(s, p, q, claim, r))
  {
    if StartAllowed(s, p, q, claim, r) {
      var g := Id(p.job, p.attempt);
      var t := Authorize(s, p, q, claim, r);
      assert GrantOk(s.tasks, s.auth, g);
      assert ClaimOf(s.auth, g) == claim;
      StartCore(s.slot, s.tasks, s.auth, s.exec, g, Start(q, r.now, r.contract));
      hide Replayed, Core, StartAllowed, Remote.Inv;
      QuietFrame(s.exec, t.exec, s.remote);
      hide Quiet;
    }
  }

  // Only times of one grant change.
  ghost predicate SameGrants(auth: Auth, next: Auth) {
    && next.receipts == auth.receipts && next.grants.Keys == auth.grants.Keys
    && forall h | h in auth.grants :: next.grants[h].token == auth.grants[h].token
  }

  ghost predicate SameJobs(tasks: Tasks, next: Tasks) {
    && next.jobs.Keys == tasks.jobs.Keys
    && forall j | j in tasks.jobs ::
        next.jobs[j].state == tasks.jobs[j].state && next.jobs[j].attempt == tasks.jobs[j].attempt
  }

  ghost function WithGrant(auth: Auth, g: GrantId, row: Grant): Auth {
    auth.(grants := auth.grants[g := row])
  }

  lemma SameGrantsUpdate(auth: Auth, g: GrantId, row: Grant)
    requires g in auth.grants && row.token == auth.grants[g].token
    ensures SameGrants(auth, WithGrant(auth, g, row))
  {}

  lemma SameJobsUpdate(tasks: Tasks, job: string, row: Job)
    requires job in tasks.jobs && row.state == tasks.jobs[job].state && row.attempt == tasks.jobs[job].attempt
    ensures SameJobs(tasks, WithJob(tasks, job, row))
  {}

  lemma SameGrantsKeep(slot: Slot, tasks: Tasks, auth: Auth, exec: Exec, tasks': Tasks, auth': Auth)
    requires Linked(slot, tasks, auth) && Captured(auth, exec) && SlotHeld(slot, tasks, auth, exec)
    requires SameGrants(auth, auth') && SameJobs(tasks, tasks')
    ensures Linked(slot, tasks', auth') && Captured(auth', exec) && SlotHeld(slot, tasks', auth', exec)
  {
    forall h | h in auth'.grants ensures ClaimOf(auth', h) == ClaimOf(auth, h) {}
    forall q | q in auth'.receipts ensures ReceiptOk(slot, auth', q) { assert ReceiptOk(slot, auth, q); }
    forall h | h in auth'.grants ensures GrantOk(tasks', auth', h) && HeldOk(slot, tasks', auth', exec, h) {
      assert GrantOk(tasks, auth, h) && HeldOk(slot, tasks, auth, exec, h);
    }
  }

  lemma RenewOne(tasks: Tasks, auth: Auth, exec: Exec, g: GrantId, lease: int, expires: int, h: GrantId)
    requires g in auth.grants && h in auth.grants && !Dead(tasks, g) && LeaseOk(tasks, auth, exec, g)
        && LeaseOk(tasks, auth, exec, h)
    requires expires <= lease && lease <= auth.grants[g].created + BOUND
    requires g !in exec.starts ==> Some(lease) == tasks.jobs[g.job].lease
    ensures LeaseOk(WithJob(tasks, g.job, tasks.jobs[g.job].(lease := Some(lease))),
        WithGrant(auth, g, auth.grants[g].(expires := expires)), exec, h)
  {}

  lemma RenewCore(slot: Slot, tasks: Tasks, auth: Auth, exec: Exec, g: GrantId, lease: int, expires: int)
    requires Core(slot, tasks, auth, exec) && g in auth.grants && !Dead(tasks, g)
    requires expires <= lease && lease <= auth.grants[g].created + BOUND
    requires g !in exec.starts ==> Some(lease) == tasks.jobs[g.job].lease
    ensures Core(slot, WithJob(tasks, g.job, tasks.jobs[g.job].(lease := Some(lease))),
        WithGrant(auth, g, auth.grants[g].(expires := expires)), exec)
  {
    var t := WithJob(tasks, g.job, tasks.jobs[g.job].(lease := Some(lease)));
    var a := WithGrant(auth, g, auth.grants[g].(expires := expires));
    SameGrantsUpdate(auth, g, a.grants[g]);
    SameJobsUpdate(tasks, g.job, t.jobs[g.job]);
    assert a.grants.Keys == auth.grants.Keys;
    hide Linked, Captured, SlotHeld, OneSlot, LeaseOk, SameGrants, SameJobs, WithJob, WithGrant;
    SameGrantsKeep(slot, tasks, auth, exec, t, a);
    forall h | h in a.grants ensures LeaseOk(t, a, exec, h) { RenewOne(tasks, auth, exec, g, lease, expires, h); }
  }

  lemma RenewEffect(s: State, p: Params, q: string, digest: string, r: RenewReads)
    requires !RenewReply(s, p, q, digest, r).RenewRejected? && q !in s.replies.stored
    ensures BoundTask(s, p, r.now) && s.tasks.jobs[p.job].lease.Some? && RenewedLease(s, p, r.now).Some?
    ensures var g := Id(p.job, p.attempt);
        var lease := RenewedLease(s, p, r.now).value; var expires := Min(lease, r.now + GRANT_SECONDS);
            Renew(s, p, q, digest, r) ==
              s.(tasks := WithJob(s.tasks, p.job, s.tasks.jobs[p.job].(lease := Some(lease))),
                 auth := WithGrant(s.auth, g, s.auth.grants[g].(expires := expires)),
                 replies := Stored(s.replies, q, Reply(digest, g, Some(expires))))
  {}

  lemma RenewBound(s: State, p: Params, now: int)
    requires Leases(s.tasks, s.auth, s.exec) && BoundTask(s, p, now) && RenewedLease(s, p, now).Some?
    ensures RenewedLease(s, p, now).value <= s.auth.grants[Id(p.job, p.attempt)].created + BOUND
  {
    assert LeaseOk(s.tasks, s.auth, s.exec, Id(p.job, p.attempt));
  }

  lemma ReplyKeeps(replies: Replies, q: string, row: Reply)
    requires Replayed(replies) && q !in replies.stored
    ensures Replayed(Stored(replies, q, row))
  {}

  lemma RenewKeeps(s: State, p: Params, q: string, digest: string, r: RenewReads)
    requires Inv(s)
    ensures Inv(Renew(s, p, q, digest, r))
  {
    if !RenewReply(s, p, q, digest, r).RenewRejected? && q !in s.replies.stored {
      RenewEffect(s, p, q, digest, r);
      RenewBound(s, p, r.now);
      var g := Id(p.job, p.attempt);
      var lease := RenewedLease(s, p, r.now).value;
      hide Renew, RenewReply, Core, Quiet, Remote.Inv, Replayed, WithJob, WithGrant;
      ReplyKeeps(s.replies, q, Reply(digest, g, Some(Min(lease, r.now + GRANT_SECONDS))));
      RenewCore(s.slot, s.tasks, s.auth, s.exec, g, lease, Min(lease, r.now + GRANT_SECONDS));
    }
  }

  lemma RepliesKeep(s: State, replies: Replies)
    requires Inv(s) && Replayed(replies)
    ensures Inv(s.(replies := replies))
  {
    hide Core, Quiet, Replayed, Remote.Inv;
  }

  lemma ReportKeeps(s: State, p: Params, q: string, digest: string, report: string, valid: bool, now: int)
    requires Inv(s)
    ensures Inv(Report(s, p, q, digest, report, valid, now))
  {
    hide Core, Quiet, Remote.Inv, BoundTask, Verified;
    var t := Report(s, p, q, digest, report, valid, now);
    if t != s {
      ReplyKeeps(s.replies, q, Reply(digest, Id(p.job, p.attempt), None));
      RepliesKeep(s, t.replies);
    }
  }

  lemma BoardKeeps(s: State, board: map<string, BoardAction>)
    requires Inv(s)
    ensures Inv(s.(replies := s.replies.(board := board)))
  {
    hide Core, Quiet, Remote.Inv;
  }

  lemma RevokeKeeps(s: State, g: GrantId)
    requires Inv(s)
    ensures Inv(Revoke(s, g))
  {
    hide Quiet, Replayed, Remote.Inv, Linked, Captured, SlotHeld, OneSlot;
    if g in s.auth.grants {
      var a := Revoke(s, g).auth;
      assert a == WithGrant(s.auth, g, s.auth.grants[g].(revoked := true));
      SameGrantsUpdate(s.auth, g, a.grants[g]);
      SameGrantsKeep(s.slot, s.tasks, s.auth, s.exec, s.tasks, a);
      forall h | h in a.grants ensures LeaseOk(s.tasks, a, s.exec, h) { assert LeaseOk(s.tasks, s.auth, s.exec, h); }
    }
  }

  lemma UnitStepKeeps(s: State, units: map<GrantId, Unit>)
    requires Inv(s)
    ensures Inv(s.(exec := s.exec.(units := units)))
  {
    UnitsKeep(s.slot, s.tasks, s.auth, s.exec, units);
    hide Core, Replayed, Remote.Inv;
    QuietFrame(s.exec, s.exec.(units := units), s.remote);
    hide Quiet;
  }

  // ---- settlement --------------------------------------------------------------------------------------------

  lemma CancelQuiet(exec: Exec, remote: Remote.State, g: GrantId, at: int)
    requires Quiet(exec, remote) && Remote.Rows(remote)
    ensures Quiet(exec, Remote.CancelUnstarted(remote, g, at))
    ensures var t := Remote.CancelUnstarted(remote, g, at);
            forall r | r in t.queue.actions && t.queue.actions[r].grant == g :: !t.queue.actions[r].state.Queued?
  {
    var t := Remote.CancelUnstarted(remote, g, at);
    forall r | r in t.queue.actions
      ensures r in remote.queue.actions && t.queue.actions[r].grant == remote.queue.actions[r].grant
      ensures t.queue.actions[r].state.Queued? ==>
          t.queue.actions[r].grant != g && remote.queue.actions[r].state.Queued?
      ensures Remote.Loose(t, r) ==> Remote.Loose(remote, r)
    {
      assert Remote.ResultFits(remote.queue.actions[r].state, Remote.Exit(remote, r));
    }
  }

  ghost predicate NoneQueued(s: State, g: GrantId) {
    forall r | r in s.remote.queue.actions && s.remote.queue.actions[r].grant == g ::
        !s.remote.queue.actions[r].state.Queued?
  }

  lemma InspectedKeeps(s: State, g: GrantId, at: int)
    requires Inv(s)
    ensures Inv(Inspected(s, g, at))
    ensures ExitBound(s, g) ==> NoneQueued(Inspected(s, g, at), g)
  {
    if ExitBound(s, g) {
      Remote.CancelKeeps(s.remote, g, at);
      CancelQuiet(s.exec, s.remote, g, at);
      hide Core, Replayed, Quiet, Remote.Inv, Remote.CancelUnstarted;
    }
  }

  lemma SettledQuiet(s: State, g: GrantId)
    requires Quiet(s.exec, s.remote) && Remote.Inv(s.remote) && g in s.exec.resources && !RemoteBusy(s, g)
        && NoneQueued(s, g)
    ensures Quiet(SetSettled(s, g).exec, s.remote)
  {
    var t := SetSettled(s, g);
    forall h, x | Settled(t.exec, h) && x in s.remote.queue.actions && s.remote.queue.actions[x].grant == h
      ensures !s.remote.queue.actions[x].state.Queued? && !Remote.Loose(s.remote, x)
    {
      if h == g { Remote.UnsettledIsLoose(s.remote, x); } else { assert Settled(s.exec, h); }
    }
  }

  lemma SettledKeeps(s: State, g: GrantId)
    requires Inv(s) && g in s.exec.resources && !RemoteBusy(s, g) && NoneQueued(s, g)
    ensures Inv(SetSettled(s, g))
  {
    SettleCore(s.slot, s.tasks, s.auth, s.exec, g);
    SettledQuiet(s, g);
    hide Core, Replayed, Quiet, Remote.Inv, RemoteBusy, NoneQueued;
  }

  lemma SettlesMeans(s: State, g: GrantId, boardOk: bool, at: int)
    requires Settles(s, g, boardOk, at)
    ensures ExitBound(s, g) && !RemoteBusy(Inspected(s, g, at), g) && Inspected(s, g, at) ==
        s.(remote := Inspected(s, g, at).remote)
  {}

  // The resources of a grant with an observed exit settle.
  lemma SettlementKeeps(s: State, g: GrantId, boardOk: bool, at: int)
    requires Inv(s) && Settles(s, g, boardOk, at)
    ensures Inspected(s, g, at) == s.(remote := Inspected(s, g, at).remote) && g in s.exec.resources
    ensures Inv(SetSettled(Inspected(s, g, at), g))
  {
    SettlesMeans(s, g, boardOk, at);
    hide Inv, Inspected, Settles, RemoteBusy, NoneQueued;
    InspectedKeeps(s, g, at);
    SettledKeeps(Inspected(s, g, at), g);
  }

  lemma FinishKeeps(s: State, q: string, g: GrantId, boardOk: bool, at: int)
    requires Inv(s)
    ensures Inv(FinishObserved(s, q, g, boardOk, at))
  {
    if Unfinished(s.slot, q) && g in s.exec.units && s.exec.units[g].claim == q && s.exec.units[g].exit.Some? {
      if Settles(s, g, boardOk, at) {
        SettlementKeeps(s, g, boardOk, at);
        assert g in s.auth.grants && ClaimOf(s.auth, g) == q;
        hide Inv, Inspected, Settles;
        FinishLaunchKeeps(SetSettled(Inspected(s, g, at), g), q, g);
      } else {
        InspectedKeeps(s, g, at);
        hide Inv, Inspected, Settles;
      }
    }
  }

  lemma FinishLaunchKeeps(s: State, q: string, g: GrantId)
    requires Inv(s) && Unfinished(s.slot, q) && g in s.auth.grants && ClaimOf(s.auth, g) == q
        && Released(s.tasks, s.exec, g)
    ensures Inv(SetLaunch(s, q, s.slot.launches[q].(state := Finished)))
  {
    var next := s.slot.launches[q := s.slot.launches[q].(state := Finished)];
    assert GrantOk(s.tasks, s.auth, g);
    forall h | h in s.auth.grants && ClaimOf(s.auth, h) == q ensures Released(s.tasks, s.exec, h) {
      ClaimIsInjective(s.slot, s.tasks, s.auth, g, h);
    }
    assert next.Keys == s.slot.launches.Keys;
    hide Core, Quiet, Replayed, Remote.Inv, Released;
    LaunchesKeep(s.slot, s.tasks, s.auth, s.exec, next);
  }

  // Settlement, and at most the job of the grant stopped with it.
  lemma ReconcileEffect(s: State, g: GrantId, boardOk: bool, contextOk: bool, outcome: JobState, at: int)
    requires Settles(s, g, boardOk, at)
    ensures g in Inspected(s, g, at).exec.resources
    ensures var u := SetSettled(Inspected(s, g, at), g); var t := Reconcile(s, g, boardOk, contextOk, outcome, at);
            t == s || t == u || (g.job in u.tasks.jobs && g.job in t.tasks.jobs
                && t == SetJob(u, g.job, t.tasks.jobs[g.job]) &&
              t.tasks.jobs[g.job].attempt == u.tasks.jobs[g.job].attempt && !t.tasks.jobs[g.job].state.Running?)
  {
    hide RemoteBusy, Remote.CancelUnstarted;
  }

  lemma ReconcileKeeps(s: State, g: GrantId, boardOk: bool, contextOk: bool, outcome: JobState, at: int)
    requires Inv(s)
    ensures Inv(Reconcile(s, g, boardOk, contextOk, outcome, at))
  {
    var t := Reconcile(s, g, boardOk, contextOk, outcome, at);
    if Settles(s, g, boardOk, at) {
      hide *;
      SettlementKeeps(s, g, boardOk, at);
      ReconcileEffect(s, g, boardOk, contextOk, outcome, at);
      var u := SetSettled(Inspected(s, g, at), g);
      if t != s && t != u { StopJobKeeps(u, g.job, t.tasks.jobs[g.job]); }
    } else {
      InspectedKeeps(s, g, at);
      hide Inv, Settles, Inspected;
    }
  }

  lemma ReclaimKeeps(s: State, q: string, now: int)
    requires Inv(s)
    ensures Inv(Reclaim(s, q, now))
  {
    if Reclaim(s, q, now) != s {
      var job := s.slot.launches[q].job;
      var j := s.tasks.jobs[job];
      var g := Id(job, j.attempt);
      assert GrantOk(s.tasks, s.auth, g) && HeldOk(s.slot, s.tasks, s.auth, s.exec, g);
      assert Unfinished(s.slot, ClaimOf(s.auth, g));
      assert ClaimOf(s.auth, g) == q;
      var u := SetJob(s, job, j.(state := Queued, owner := None, lease := None));
      hide Inv, Reclaim;
      StopJobKeeps(s, job, u.tasks.jobs[job]);
      FinishLaunchKeeps(u, q, g);
    }
  }

  lemma RecoverKeeps(s: State, job: string, valid: bool)
    requires Inv(s)
    ensures Inv(Recover(s, job, valid))
  {
    if Recoverable(s, job, valid) {
      var t := Recover(s, job, valid);
      var g := Id(job, s.tasks.jobs[job].attempt);
      StopJobKeeps(s, job, t.tasks.jobs[job]);
      var u := SetJob(s, job, t.tasks.jobs[job]);
      forall q | q in t.slot.launches && t.slot.launches[q].state.Finished? && Unfinished(u.slot, q)
        ensures q in u.auth.receipts && forall h | h in u.auth.grants && ClaimOf(u.auth, h) == q ::
            Released(u.tasks, u.exec, h)
      {
        assert ClaimNames(s.auth, q, g) && g !in s.exec.starts;
        assert ReceiptOk(s.slot, s.auth, q);
        forall h | h in u.auth.grants && ClaimOf(u.auth, h) == q ensures Released(u.tasks, u.exec, h) {
          ClaimIsInjective(u.slot, u.tasks, u.auth, g, h);
        }
      }
      LaunchesKeep(u.slot, u.tasks, u.auth, u.exec, t.slot.launches);
      hide Core, Quiet, Replayed;
    }
  }

  lemma NewJobKeeps(s: State, job: string, caseId: string, round: nat, input: string)
    requires Inv(s)
    ensures Inv(NewJob(s, job, caseId, round, input))
  {
    hide OneSlot, Captured, Quiet, Replayed, Remote.Inv;
    if job !in s.tasks.jobs {
      var t := NewJob(s, job, caseId, round, input).tasks;
      forall g | g in s.auth.grants ensures GrantOk(t, s.auth, g) && LeaseOk(t, s.auth, s.exec, g)
          && HeldOk(s.slot, t, s.auth, s.exec, g) {
        assert GrantOk(s.tasks, s.auth, g) && LeaseOk(s.tasks, s.auth, s.exec, g)
            && HeldOk(s.slot, s.tasks, s.auth, s.exec, g);
      }
    }
  }

  lemma CaseKeeps(s: State, c: string, row: CaseRow)
    requires Inv(s)
    ensures Inv(s.(tasks := s.tasks.(cases := s.tasks.cases[c := row])))
  {
    var t := s.tasks.(cases := s.tasks.cases[c := row]);
    hide OneSlot, Captured, Quiet, Replayed;
    forall g | g in s.auth.grants ensures GrantOk(t, s.auth, g) && LeaseOk(t, s.auth, s.exec, g)
        && HeldOk(s.slot, t, s.auth, s.exec, g) {
      assert GrantOk(s.tasks, s.auth, g) && LeaseOk(s.tasks, s.auth, s.exec, g)
          && HeldOk(s.slot, s.tasks, s.auth, s.exec, g);
    }
  }

  // ---- remote events ---------------------------------------------------------------------------------------------

  // An admitted submission names an unsettled grant.
  lemma AdmitsUnsettled(s: State, e: Event, x: Remote.Event)
    requires RemoteEvent(s, e) == Some(x) && x.SubmitAction? && x.admitted
    ensures !Settled(s.exec, x.grant)
  {}

  // A queue event never queues or reopens an action of a settled grant.
  lemma QuietStep(s: State, e: Event, x: Remote.Event)
    requires Quiet(s.exec, s.remote) && Remote.Inv(s.remote) && RemoteEvent(s, e) == Some(x)
    ensures Quiet(s.exec, Remote.Apply(s.remote, x))
  {
    var t := Remote.Apply(s.remote, x);
    hide Remote.Apply, Remote.Inv, Remote.Loose, RemoteEvent;
    forall g, r | Settled(s.exec, g) && r in t.queue.actions && t.queue.actions[r].grant == g
      ensures !t.queue.actions[r].state.Queued? && !Remote.Loose(t, r)
    {
      if r in s.remote.queue.actions {
        Remote.ActionStep(s.remote, x, r);
        LooseStep(s.remote, x, r);
      } else {
        NewAction(s.remote, x, r);
        AdmitsUnsettled(s, e, x);
      }
    }
  }

  lemma NewAction(s: Remote.State, x: Remote.Event, r: string)
    requires r !in s.queue.actions && r in Remote.Apply(s, x).queue.actions
    ensures x.SubmitAction? && x.admitted && Remote.Apply(s, x).queue.actions[r].grant == x.grant
  {}

  // Only a queued action can become unaccounted for.
  lemma LooseStep(s: Remote.State, x: Remote.Event, r: string)
    requires Remote.Inv(s) && r in s.queue.actions && !s.queue.actions[r].state.Queued? && !Remote.Loose(s, r)
    ensures !Remote.Loose(Remote.Apply(s, x), r)
  {
    Remote.ActionStep(s, x, r);
    CleanupsStay(s, x);
  }

  lemma CleanupsStay(s: Remote.State, x: Remote.Event)
    ensures s.audit.cleanups.Keys <= Remote.Apply(s, x).audit.cleanups.Keys
  {}

  lemma RemoteStepKeeps(s: State, e: Event, x: Remote.Event)
    requires Inv(s) && RemoteEvent(s, e) == Some(x)
    ensures Inv(s.(remote := Remote.Apply(s.remote, x)))
  {
    Remote.StepKeeps(s.remote, x);
    QuietStep(s, e, x);
    hide Core, Quiet, Replayed;
  }

  lemma ParkKeeps(s: State, job: string)
    requires Inv(s)
    ensures Inv(Park(s, job))
  {
    var t := Park(s, job);
    hide Inv;
    if t != s { StopJobKeeps(s, job, t.tasks.jobs[job]); }
  }

  lemma BlockKeeps(s: State, p: Params, now: int)
    requires Inv(s)
    ensures Inv(BlockUnstarted(s, p, now))
  {
    var t := BlockUnstarted(s, p, now);
    hide Inv;
    if t != s { StopJobKeeps(s, p.job, t.tasks.jobs[p.job]); }
  }

  lemma SubmitBoardKeeps(s: State, p: Params, q: string, digest: string, r: RemoteReads)
    requires Inv(s)
    ensures Inv(SubmitBoardAction(s, p, q, digest, r))
  {
    var t := SubmitBoardAction(s, p, q, digest, r);
    assert t == s.(replies := s.replies.(board := t.replies.board)) by { hide Inv, Admits; }
    hide *;
    BoardKeeps(s, t.replies.board);
  }

  lemma MoveBoardKeeps(s: State, q: string, open: bool)
    requires Inv(s)
    ensures Inv(MoveBoard(s, q, open))
  {
    var t := MoveBoard(s, q, open);
    assert t == s.(replies := s.replies.(board := t.replies.board));
    hide *;
    BoardKeeps(s, t.replies.board);
  }

  lemma MoveKeeps(s: State, job: string, state: JobState)
    requires Inv(s)
    ensures Inv(MoveJob(s, job, state))
  {
    var t := MoveJob(s, job, state);
    hide Inv;
    if t != s { StopJobKeeps(s, job, t.tasks.jobs[job]); }
  }

  lemma ObserveKeeps(s: State, g: GrantId, claim: string, invocation: string, code: int)
    requires Inv(s)
    ensures Inv(RegisterUnit(s, g, claim, invocation)) && Inv(RecordExit(s, g, code))
  {
    var t, u := RegisterUnit(s, g, claim, invocation), RecordExit(s, g, code);
    assert t == s.(exec := s.exec.(units := t.exec.units)) && u == s.(exec := s.exec.(units := u.exec.units));
    hide *;
    UnitStepKeeps(s, t.exec.units);
    UnitStepKeeps(s, u.exec.units);
  }

  // What workers request, and what is observed of them.
  predicate OfWorkers(e: Event) {
    || e.ClaimTask? || e.StartTask? || e.RenewTask? || e.BlockTask? || e.ReportTask? || e.SubmitBoard? || e.BoardMoves?
    || e.ObserveUnit? || e.ObserveExit?
  }

  lemma WorkerStepKeeps(s: State, e: Event)
    requires Inv(s) && OfWorkers(e)
    ensures Inv(Apply(s, e))
  {
    hide Inv, Claim, Authorize, Renew, BlockUnstarted, Report, SubmitBoardAction, MoveBoard, RegisterUnit, RecordExit,
        RemoteEvent, Remote.Apply;
    match e
    case ClaimTask(c, r) => ClaimKeeps(s, c, r);
    case StartTask(p, q, claim, r) => AuthorizeKeeps(s, p, q, claim, r);
    case RenewTask(p, q, digest, r) => RenewKeeps(s, p, q, digest, r);
    case BlockTask(p, now) => BlockKeeps(s, p, now);
    case ReportTask(p, q, digest, report, valid, now) => ReportKeeps(s, p, q, digest, report, valid, now);
    case SubmitBoard(p, q, digest, r) => SubmitBoardKeeps(s, p, q, digest, r);
    case BoardMoves(q, open) => MoveBoardKeeps(s, q, open);
    case ObserveUnit(g, claim, invocation) => ObserveKeeps(s, g, claim, invocation, 0);
    case ObserveExit(g, code) => ObserveKeeps(s, g, "", "", code);
  }

  lemma QueueStepKeeps(s: State, e: Event)
    requires Inv(s)
    ensures RemoteEvent(s, e).Some? ==> Inv(s.(remote := Remote.Apply(s.remote, RemoteEvent(s, e).value)))
  {
    hide Inv, RemoteEvent, Remote.Apply;
    if RemoteEvent(s, e).Some? { RemoteStepKeeps(s, e, RemoteEvent(s, e).value); }
  }

  lemma StepKeeps(s: State, e: Event)
    requires Inv(s)
    ensures Inv(Apply(s, e))
  {
    hide Inv, Dispatch, LaunchAnswer, CheckClaim, Claim, Authorize, Renew, FinishObserved, Reconcile, Reclaim, Recover,
        NewJob, Revoke,
         Park, BlockUnstarted, Report, SubmitBoardAction, MoveBoard, MoveJob, RegisterUnit, RecordExit, RemoteEvent,
             Remote.Apply;
    QueueStepKeeps(s, e);
    if OfWorkers(e) {
      WorkerStepKeeps(s, e);
    } else {
      match e
      case DispatchOne(q, job, contract, allowed, ok) => DispatchKeeps(s, q, job, contract, allowed, ok);
      case AnswerLaunch(q, accepted) => AnswerKeeps(s, q, accepted);
      case ParkInvalid(job) => ParkKeeps(s, job);
      case CheckClaimOf(q) => CheckKeeps(s, q);
      case FinishLaunch(q, g, boardOk, at) => FinishKeeps(s, q, g, boardOk, at);
      case ReconcileGrant(g, boardOk, contextOk, outcome, at) => ReconcileKeeps(s, g, boardOk, contextOk, outcome, at);
      case ReclaimLaunch(q, now) => ReclaimKeeps(s, q, now);
      case RecoverJob(job, valid) => RecoverKeeps(s, job, valid);
      case AddJob(job, caseId, round, input) => NewJobKeeps(s, job, caseId, round, input);
      case MoveJobTo(job, state) => MoveKeeps(s, job, state);
      case ChangeCase(c, row) => CaseKeeps(s, c, row);
      case RevokeGrant(g) => RevokeKeeps(s, g);
      case _ =>
    }
  }

  lemma {:induction false} RunKeeps(es: seq<Event>)
    ensures Inv(Run(es))
  {
    if es != [] {
      hide Inv, Apply;
      RunKeeps(es[..|es| - 1]);
      StepKeeps(Run(es[..|es| - 1]), es[|es| - 1]);
    }
  }
}
