/**
 What each transaction on approvals and the board lock does and when, and whose verdict stands behind
 every decision, lease and push.
 */
module BoardLaws {
  import opened Options
  import opened BoardLease

  function WithRow(s: State, id: string, a: Approval): State { s.(approvals := s.approvals[id := a]) }

  predicate Pending(a: Approval, now: int) { a.status == Requested && now < a.expires }

  // The name a lock is held under.
  function HolderOf(a: Approval): string {
    match a.session
    case Some(session) => a.caseId + ":" + session
    case None => a.caseId + ":None"
  }

  // No lock is held, or it is held for the Case and session of this row.
  predicate LockFree(s: State, a: Approval) {
    match s.lock
    case None => true
    case Some(l) => l.owner == HolderOf(a) && l.caseId == a.caseId
  }

  // ---- single transactions --------------------------------------------------------------------------

  // The row after a verdict on a pending request.
  function Settled(a: Approval, v: Verdict): Approval {
    var expires :=
      if v.approve && a.kind == Lease && a.action.Board? then v.now + 60 * a.action.minutes
      else if v.approve && a.kind == WipPush then v.now + 60 * v.pushMinutes
      else a.expires;
    a.(status := if v.approve then Approved else Denied, expires := expires,
       decision := Some(Decision(v.approve, v.now, v.channel, v.identity, v.text)))
  }

  /** A verdict takes effect if and only if it is trusted, names the action as requested, the request is
      pending and, to approve a lease, the action has an estimate and the lock is free or the session's own.
      An approval approves and a denial denies; only the approval of a lease touches the lock. A verdict
      that comes too late expires the row, and any other changes nothing. */
  lemma DecidesExactly(s: State, id: string, v: Verdict)
    requires id in s.approvals
    ensures var a, t := s.approvals[id], Apply(s, DecideApproval(id, v));
            var takesLock := v.approve && a.kind == Lease;
            if !v.trusted || v.action != a.action then t == s
            else if (a.status == Requested || a.status == Approved) && a.expires <= v.now
            then t == WithRow(s, id, a.(status := Expired))
            else if a.status != Requested || (takesLock && !(a.action.Board? && LockFree(s, a))) then t == s
            else
              && t.approvals == s.approvals[id := Settled(a, v)]
              && t.lock == (if takesLock then Some(Lock(HolderOf(a), a.caseId, v.now + 60 * a.action.minutes))
                                              else s.lock)
              && t.decided == s.decided + [id] && t.pushed == s.pushed
    ensures var a := s.approvals[id];
            DecideAnswer(s, id, v) ==
              if !v.trusted || v.action != a.action then Raised
              else if a.status == Requested then
                (if a.expires <= v.now || (v.approve && a.kind == Lease && !(a.action.Board? && LockFree(s, a)))
                    then Raised else Decided)
              else if Acknowledges(a, v) then Replayed
              else Raised
  {
    HolderIs(s.approvals[id]);
    hide Owner, HolderOf;
  }

  lemma HolderIs(a: Approval)
    ensures HolderOf(a) == Owner(a.caseId, a.session)
  {
    assert a.caseId + ":" + "None" == a.caseId + ":None";
  }

  // The same verdict again, by the same operator: in the same words, or through another channel.
  predicate Acknowledges(a: Approval, v: Verdict) {
    && a.decision.Some? && a.decision.value.identity == v.identity
    && ((a.status == Approved && v.approve && v.now < a.expires) || (a.status == Denied && !v.approve))
    && (a.decision.value.channel == v.channel ==> a.decision.value.text == v.text)
  }

  /** An approval in time succeeds: a pending request with a trusted approval of its own action becomes
      approved, a lease whenever its action has an estimate and the lock is free or its own. */
  lemma ApprovalSucceeds(s: State, id: string, v: Verdict)
    requires id in s.approvals && Pending(s.approvals[id], v.now) && v.trusted && v.approve
        && v.action == s.approvals[id].action
    requires s.approvals[id].kind == Lease ==> s.approvals[id].action.Board? && LockFree(s, s.approvals[id])
    ensures var a, t := s.approvals[id], Apply(s, DecideApproval(id, v));
            && t.approvals[id].status == Approved && t.approvals[id].decision.Some?
                && t.approvals[id].decision.value.approved
            && (a.kind == Lease ==> t.lock == Some(Lock(HolderOf(a), a.caseId, t.approvals[id].expires)))
  {
    HolderIs(s.approvals[id]);
    hide Owner, HolderOf;
  }

  /** A denial never touches the lock and never approves anything. */
  lemma DenialTakesNothing(s: State, id: string, v: Verdict)
    requires !v.approve
    ensures var t := Apply(s, DecideApproval(id, v));
            t.lock == s.lock && forall k | k in t.approvals && t.approvals[k].status == Approved ::
                k in s.approvals && s.approvals[k] == t.approvals[k]
  {}

  // The same action of the Case is pending or approved at this instant.
  predicate Asked(a: Approval, kind: Kind, caseId: string, action: Action, now: int) {
    && a.kind == kind && a.caseId == caseId && a.action == action && now < a.expires
    && (a.status == Requested || a.status == Approved)
  }

  function Overdue(a: Approval, now: int): Approval {
    if (a.status == Requested || a.status == Approved) && a.expires <= now then a.(status := Expired) else a
  }

  lemma SweepIs(s: State, now: int)
    ensures var t := Sweep(s, now);
            && t == s.(approvals := t.approvals) && t.approvals.Keys == s.approvals.Keys
            && forall k | k in s.approvals :: t.approvals[k] == Overdue(s.approvals[k], now)
  {}

  lemma ConflictIs(s: State, kind: Kind, caseId: string, action: Action, now: int)
    ensures Conflicts(Sweep(s, now), kind, caseId, action) <==>
              exists k :: k in s.approvals && Asked(s.approvals[k], kind, caseId, action, now)
  {
    var t := Sweep(s, now);
    SweepIs(s, now);
    hide Sweep;
    if k :| k in s.approvals && Asked(s.approvals[k], kind, caseId, action, now) {
      assert Active(t.approvals[k]);
    }
  }

  /** A request first expires what is overdue, then adds exactly one pending row unless the same action of
      the Case is already pending or approved. */
  lemma RequestsExactly(s: State, id: string, kind: Kind, caseId: string, session: Option<string>, action: Action,
      expires: int, now: int)
    requires id !in s.approvals
    ensures var t := Apply(s, RequestApproval(id, kind, caseId, session, action, expires, now));
            var live := exists k :: k in s.approvals && Asked(s.approvals[k], kind, caseId, action, now);
            && t == s.(approvals := t.approvals) && t.approvals.Keys == s.approvals.Keys + (if live then {} else {id})
            && (!live ==> t.approvals[id] == Approval(kind, caseId, session, action, Requested, expires, None, false))
            && forall k | k in s.approvals :: t.approvals[k] == Overdue(s.approvals[k], now)
  {
    SweepIs(s, now);
    ConflictIs(s, kind, caseId, action, now);
    hide Sweep, Conflicts, Asked, Overdue;
  }

  // An approved, unused and unexpired push of exactly this action.
  predicate PushReady(s: State, id: string, action: Action, now: int) {
    id in s.approvals &&
    var a := s.approvals[id];
    a.kind == WipPush && a.status == Approved && !a.consumed && a.action == action && now < a.expires
  }

  /** A push approval is used if and only if it is approved, unused, unexpired and for exactly this action;
      it is then used up. */
  lemma ConsumesIff(s: State, id: string, action: Action, now: int)
    ensures Apply(s, ConsumePushApproval(id, action, now)) ==
              if PushReady(s, id, action, now)
              then WithRow(s, id, s.approvals[id].(status := Consumed, consumed := true)).(pushed := s.pushed + [id])
                   else s
  {}

  // An approved or expired lease of the session that was not closed yet.
  predicate Closing(a: Approval, caseId: string, session: string) {
    && a.kind == Lease && a.caseId == caseId && a.session == Some(session) && !a.consumed
    && (a.status == Approved || a.status == Expired)
  }

  /** A cleanup closes a session if and only if the row is its one unclosed lease and the lock is held for
      it; the lease is then used up and the lock gone. */
  lemma CleansUpIff(s: State, id: string, caseId: string, session: string)
    ensures var own := && id in s.approvals && Closing(s.approvals[id], caseId, session)
                       && (forall k | k in s.approvals && Closing(s.approvals[k], caseId, session) :: k == id)
                       && s.lock.Some? && s.lock.value.owner == caseId + ":" + session && s.lock.value.caseId == caseId;
            Apply(s, CleanupSession(id, caseId, session)) ==
              if own then WithRow(s, id, s.approvals[id].(status := Consumed, consumed := true)).(lock := None) else s
  {}

  // ---- whose verdict it was --------------------------------------------------------------------------------

  // The k-th event is the trusted verdict that this decision records, about this very action.
  ghost predicate VerdictAt(es: seq<Event>, k: nat, id: string, d: Decision, action: Action) {
    && k < |es| && es[k].DecideApproval? && es[k].id == id
    && var v := es[k].verdict;
       v.trusted && v.action == action && d == Decision(v.approve, v.now, v.channel, v.identity, v.text)
  }

  lemma DecisionStep(s: State, e: Event, id: string)
    requires id in Apply(s, e).approvals && Apply(s, e).approvals[id].decision.Some?
    ensures id in s.approvals && Apply(s, e).approvals[id].action == s.approvals[id].action
    ensures s.approvals[id].decision == Apply(s, e).approvals[id].decision ||
            (&& e.DecideApproval? && e.id == id && e.verdict.trusted && e.verdict.action == s.approvals[id].action
             && Apply(s, e).approvals[id].decision ==
                  Some(Decision(e.verdict.approve, e.verdict.now, e.verdict.channel, e.verdict.identity,
                      e.verdict.text)))
  {
    hide Conflicts, Owner, LockedOut, Repeats;
  }

  /** Every decision in every run is an operator's: some trusted verdict on this row, about exactly its
      action, said what the decision records, at that instant. */
  lemma {:induction false} EveryDecisionIsAVerdict(es: seq<Event>, id: string) returns (k: nat)
    requires id in Run(es).approvals && Run(es).approvals[id].decision.Some?
    ensures VerdictAt(es, k, id, Run(es).approvals[id].decision.value, Run(es).approvals[id].action)
  {
    var front, e := es[..|es| - 1], es[|es| - 1];
    hide Apply;
    DecisionStep(Run(front), e, id);
    if Run(front).approvals[id].decision == Run(es).approvals[id].decision {
      k := EveryDecisionIsAVerdict(front, id);
    } else {
      k := |es| - 1;
    }
  }

  /** An approved row was approved, and a denied row denied, by such a verdict. */
  lemma StatusIsTheVerdict(es: seq<Event>, id: string) returns (k: nat)
    requires id in Run(es).approvals && Run(es).approvals[id].status in {Approved, Denied}
    ensures Run(es).approvals[id].decision.Some?
    ensures VerdictAt(es, k, id, Run(es).approvals[id].decision.value, Run(es).approvals[id].action)
    ensures es[k].verdict.approve <==> Run(es).approvals[id].status == Approved
  {
    RunKeeps(es);
    assert RowOk(Run(es).approvals[id]);
    k := EveryDecisionIsAVerdict(es, id);
  }

  /** Whoever holds a valid lease was approved by a trusted verdict on exactly that lease, at most 240
      minutes before it ends. */
  lemma EveryLeaseWasApproved(es: seq<Event>, id: string, c: string, session: string, now: int) returns (k: nat)
    requires ValidRow(Run(es), id, c, session, now)
    ensures k < |es| && es[k].DecideApproval? && es[k].id == id && es[k].verdict.trusted && es[k].verdict.approve
    ensures es[k].verdict.action == Run(es).approvals[id].action
    ensures now < Run(es).approvals[id].expires <= es[k].verdict.now + 240 * 60
  {
    k := StatusIsTheVerdict(es, id);
    LeaseIsBounded(es, id, c, session, now);
  }

  // The k-th event used this push approval.
  ghost predicate UsedAt(es: seq<Event>, k: nat, id: string) {
    && k < |es| && es[k].ConsumePushApproval? && es[k].id == id
    && PushReady(Run(es[..k]), id, es[k].action, es[k].now)
  }

  lemma PushedFrom(s: State, e: Event)
    ensures Apply(s, e).pushed == s.pushed ||
            (e.ConsumePushApproval? && Apply(s, e).pushed == s.pushed + [e.id] && PushReady(s, e.id, e.action, e.now))
  {
    hide Conflicts, Owner, LockedOut, Repeats;
  }

  lemma {:induction false} PushWasReady(es: seq<Event>, id: string) returns (k: nat)
    requires id in Run(es).pushed
    ensures UsedAt(es, k, id)
  {
    var front, e := es[..|es| - 1], es[|es| - 1];
    hide Apply, PushReady;
    PushedFrom(Run(front), e);
    if id in Run(front).pushed {
      k := PushWasReady(front, id);
      assert front[..k] == es[..k];
    } else {
      k := |es| - 1;
    }
  }

  /** Every push in every run used an approval that was approved, unexpired and for exactly the action
      pushed, and a trusted verdict approved that action before. */
  lemma EveryPushWasApproved(es: seq<Event>, id: string) returns (j: nat, k: nat)
    requires id in Run(es).pushed
    ensures j < k && UsedAt(es, k, id)
    ensures es[j].DecideApproval? && es[j].id == id && es[j].verdict.trusted && es[j].verdict.approve
    ensures es[j].verdict.action == es[k].action
  {
    k := PushWasReady(es, id);
    j := StatusIsTheVerdict(es[..k], id);
    assert es[..k][j] == es[j];
  }

  /** A lease is valid if and only if it is approved, unconsumed and unexpired for exactly this Case and
      session, with a normalized estimate of 1 to 240 minutes, and the one lock is the session's own and
      ends with it. */
  lemma LeaseIs(s: State, id: string, c: string, session: string, now: int)
    ensures ValidRow(s, id, c, session, now) <==>
              && id in s.approvals
              && var a := s.approvals[id];
                 && a.kind == Lease && a.caseId == c && a.session == Some(session) && a.status == Approved
                     && !a.consumed
                 && a.action.Board? && 1 <= a.action.minutes <= 240
                 && a.action.caseId == c && a.action.session == session && a.action.extra == ""
                 && now < a.expires && s.lock == Some(Lock(c + ":" + session, c, a.expires))
  {
    assert Owner(c, Some(session)) == c + ":" + session;
  }
}
