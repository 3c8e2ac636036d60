/**
 Approvals and the one board lock: requests, authenticated decisions, lease validity, single-use
 push approvals, and what the rest of the system does to these rows. The digest of an action is
 injective and is modelled by the action itself.
 */
module BoardLease {
  import opened Options

  datatype Kind = Lease | WipPush | Meeting | OtherKind
  datatype Status = Requested | Approved | Denied | Expired | Consumed | Revoked

  // A lease action names its Case, session and estimate; `extra` is empty for the normalized form.
  datatype Action = Board(caseId: string, session: string, minutes: int, extra: string) | Other(text: string)

  datatype Decision = Decision(approved: bool, at: int, channel: string, identity: string, text: string)
  datatype Approval = Approval(
    kind: Kind, caseId: string, session: Option<string>, action: Action, status: Status,
    expires: int, decision: Option<Decision>, consumed: bool)
  datatype Lock = Lock(owner: string, caseId: string, expires: int)

  // `decided` and `pushed` are history: rows whose decision, or whose push, took effect.
  datatype State = State(approvals: map<string, Approval>, lock: Option<Lock>, decided: seq<string>,
      pushed: seq<string>)

  function Init(): State { State(map[], None, [], []) }

  predicate Active(a: Approval) { a.status.Requested? || a.status.Approved? }

  // A missing session is rendered as the word None.
  function Owner(caseId: string, session: Option<string>): string {
    caseId + ":" + (if session.Some? then session.value else "None")
  }

  /** The rendered owner and the Case together identify the session, colons or not. */
  lemma OwnerNamesSession(caseId: string, a: string, b: string)
    requires Owner(caseId, Some(a)) == Owner(caseId, Some(b))
    ensures a == b
  {
    var n := |caseId + ":"|;
    assert Owner(caseId, Some(a))[n..] == a && Owner(caseId, Some(b))[n..] == b;
  }

  function SetRow(s: State, id: string, a: Approval): State { s.(approvals := s.approvals[id := a]) }

  // ---- transactions ---------------------------------------------------------------------------------

  // Overdue requests and approvals become expired.
  function Sweep(s: State, now: int): State {
    s.(approvals := map id | id in s.approvals ::
      if Active(s.approvals[id]) && s.approvals[id].expires <= now
          then s.approvals[id].(status := Expired) else s.approvals[id])
  }

  predicate Conflicts(s: State, kind: Kind, caseId: string, action: Action) {
    exists id :: id in s.approvals && Active(s.approvals[id]) && s.approvals[id].kind == kind
                 && s.approvals[id].caseId == caseId &&
                 s.approvals[id].action == action
  }

  function Request(s: State, id: string, kind: Kind, caseId: string, session: Option<string>, action: Action,
      expires: int, now: int): State {
    var t := Sweep(s, now);
    if id in t.approvals || Conflicts(t, kind, caseId, action) then t
    else SetRow(t, id, Approval(kind, caseId, session, action, Requested, expires, None, false))
  }

  // `trusted` stands for the authenticated identity, the binding and the meeting checks.
  datatype Verdict = Verdict(approve: bool, trusted: bool, action: Action, channel: string, identity: string,
      text: string, pushMinutes: int, now: int)
  datatype Answer = Raised | Decided | Replayed

  predicate LockedOut(s: State, a: Approval) {
    s.lock.Some? && (s.lock.value.owner != Owner(a.caseId, a.session) || s.lock.value.caseId != a.caseId)
  }

  predicate Repeats(a: Approval, v: Verdict) {
    && a.status == (if v.approve then Approved else Denied) && a.decision.Some?
        && a.decision.value.identity == v.identity
    && (a.decision.value.channel != v.channel || a.decision.value.text == v.text)
  }

  function DecideAnswer(s: State, id: string, v: Verdict): Answer {
    if !v.trusted || id !in s.approvals || s.approvals[id].action != v.action then Raised
    else
      var a := s.approvals[id];
      if a.status.Approved? || a.status.Denied? then
        (if a.status.Approved? && a.expires <= v.now then Raised else if Repeats(a, v) then Replayed else Raised)
      else if !a.status.Requested? || a.expires <= v.now then Raised
      else if v.approve && a.kind.Lease? && (!a.action.Board? || LockedOut(s, a)) then Raised
      else Decided
  }

  function NewExpiry(a: Approval, v: Verdict): int {
    if v.approve && a.kind.Lease? && a.action.Board? then v.now + 60 * a.action.minutes
    else if v.approve && a.kind.WipPush? then v.now + 60 * v.pushMinutes
    else a.expires
  }

  function Decide(s: State, id: string, v: Verdict): State {
    if !v.trusted || id !in s.approvals || s.approvals[id].action != v.action then s
    else
      var a := s.approvals[id];
      if Active(a) && a.expires <= v.now then SetRow(s, id, a.(status := Expired))
      else if !DecideAnswer(s, id, v).Decided? then s
      else
        var row := a.(
          status := if v.approve then Approved else Denied, expires := NewExpiry(a, v),
          decision := Some(Decision(v.approve, v.now, v.channel, v.identity, v.text)));
        var lock := if v.approve && a.kind.Lease?
            then Some(Lock(Owner(a.caseId, a.session), a.caseId, row.expires)) else s.lock;
        SetRow(s, id, row).(lock := lock, decided := s.decided + [id])
  }

  predicate PushValid(s: State, id: string, action: Action, now: int) {
    id in s.approvals &&
    var a := s.approvals[id];
    a.kind.WipPush? && a.status.Approved? && !a.consumed && a.action == action && a.expires > now
  }

  function ConsumePush(s: State, id: string, action: Action, now: int): State {
    if !PushValid(s, id, action, now) then s
    else SetRow(s, id, s.approvals[id].(status := Consumed, consumed := true)).(pushed := s.pushed + [id])
  }

  predicate Closable(a: Approval, caseId: string, session: string) {
    a.kind.Lease? && a.caseId == caseId && a.session == Some(session) && (a.status.Approved? || a.status.Expired?)
        && !a.consumed
  }

  // The cleanup of a board session closes its one lease and releases its own lock, or does nothing.
  function Cleanup(s: State, id: string, caseId: string, session: string): State {
    if id !in s.approvals || !Closable(s.approvals[id], caseId, session)
       || (exists k :: k in s.approvals && k != id && Closable(s.approvals[k], caseId, session))
       || s.lock.None? || s.lock.value.owner != Owner(caseId, Some(session)) || s.lock.value.caseId != caseId then s
    else SetRow(s, id, s.approvals[id].(status := Consumed, consumed := true)).(lock := None)
  }

  // Takeover, operator stop and execution freeze move the expiry of the lock; it stays in place.
  function MoveLockExpiry(s: State, at: int): State {
    if s.lock.None? then s else s.(lock := Some(s.lock.value.(expires := at)))
  }

  function Revoke(s: State, id: string): State {
    if id !in s.approvals then s else SetRow(s, id, s.approvals[id].(status := Revoked))
  }

  function ConsumeMeeting(s: State, id: string): State {
    if id !in s.approvals || !s.approvals[id].kind.Meeting? then s
    else SetRow(s, id, s.approvals[id].(status := Consumed, consumed := true))
  }

  // ---- lease validity ---------------------------------------------------------------------------------

  predicate LeaseRow(a: Approval, caseId: string, session: string, now: int) {
    a.kind.Lease? && a.caseId == caseId && a.session == Some(session) && a.status.Approved? && !a.consumed
        && a.expires > now
  }

  predicate LockFits(s: State, a: Approval, caseId: string, session: string, now: int) {
    && s.lock.Some? && s.lock.value.owner == Owner(caseId, Some(session)) && s.lock.value.caseId == caseId
    && s.lock.value.expires > now && s.lock.value.expires == a.expires
  }

  // The action has an estimate of 1 to 240 minutes.
  predicate EstimateInRange(a: Action) { a.Board? && 1 <= a.minutes <= 240 }

  predicate Normalized(a: Action, caseId: string, session: string) {
    EstimateInRange(a) && a == Board(caseId, session, a.minutes, "")
  }

  predicate ValidRow(s: State, id: string, caseId: string, session: string, now: int) {
    && id in s.approvals && LeaseRow(s.approvals[id], caseId, session, now)
        && LockFits(s, s.approvals[id], caseId, session, now)
    && Normalized(s.approvals[id].action, caseId, session)
  }

  ghost predicate HoldsLease(s: State, caseId: string, session: string, now: int) {
    exists id :: ValidRow(s, id, caseId, session, now)
  }

  // ---- interleavings ------------------------------------------------------------------------------------

  datatype Event =
    | RequestApproval(id: string, kind: Kind, caseId: string, session: Option<string>, action: Action, expires: int,
        now: int)
    | DecideApproval(id: string, verdict: Verdict)
    | ConsumePushApproval(id: string, action: Action, now: int)
    | CleanupSession(id: string, caseId: string, name: string)
    | LockExpiry(now: int)
    | RevokeApproval(id: string)
    | ConsumeMeetingApproval(id: string)
    | ExpireOverdue(now: int)

  function Apply(s: State, e: Event): State {
    match e
    case RequestApproval(id, kind, caseId, session, action, expires, now) => Request(s, id, kind, caseId, session,
        action, expires, now)
    case DecideApproval(id, v) => Decide(s, id, v)
    case ConsumePushApproval(id, action, now) => ConsumePush(s, id, action, now)
    case CleanupSession(id, caseId, session) => Cleanup(s, id, caseId, session)
    case LockExpiry(at) => MoveLockExpiry(s, at)
    case RevokeApproval(id) => Revoke(s, id)
    case ConsumeMeetingApproval(id) => ConsumeMeeting(s, id)
    case ExpireOverdue(now) => Sweep(s, now)
  }

  function Run(es: seq<Event>): State {
    if es == [] then Init() else Apply(Run(es[..|es| - 1]), es[|es| - 1])
  }

  // ---- invariant ---------------------------------------------------------------------------------------------

  ghost predicate RowOk(a: Approval) {
    && (a.status.Requested? ==> a.decision.None?)
    && (a.status.Approved? ==> a.decision.Some? && a.decision.value.approved)
    && (a.status.Denied? ==> a.decision.Some? && !a.decision.value.approved)
    && (a.status.Approved? && a.kind.Lease? ==>
        a.action.Board? && a.expires == a.decision.value.at + 60 * a.action.minutes)
  }

  ghost predicate OneActive(s: State) {
    forall i, j | i in s.approvals && j in s.approvals && Active(s.approvals[i]) && Active(s.approvals[j]) &&
                  s.approvals[i].kind == s.approvals[j].kind && s.approvals[i].caseId == s.approvals[j].caseId &&
                  s.approvals[i].action == s.approvals[j].action :: i == j
  }

  ghost predicate Once(ids: seq<string>) { forall i, j | 0 <= i < j < |ids| :: ids[i] != ids[j] }

  ghost predicate Histories(s: State) {
    && Once(s.decided) && (forall id | id in s.decided :: id in s.approvals && s.approvals[id].decision.Some?)
    && Once(s.pushed) && (forall id | id in s.pushed :: id in s.approvals && s.approvals[id].consumed)
  }

  ghost predicate Inv(s: State) {
    (forall id | id in s.approvals :: RowOk(s.approvals[id])) && OneActive(s) && Histories(s)
  }

  // What any event may do to an existing row.
  ghost predicate RowStep(a: Approval, b: Approval) {
    && b.kind == a.kind && b.caseId == a.caseId && b.session == a.session && b.action == a.action
    && (a.decision.Some? ==> b.decision == a.decision)
    && (a.consumed ==> b.consumed)
    && (Active(b) ==> Active(a)) && (b.status.Approved? && b != a ==> a.status.Requested?)
    && (b.status.Denied? && b != a ==> a.status.Requested?)
  }

  lemma RowDecided(s: State, k: string, v: Verdict, id: string)
    requires id in s.approvals && RowOk(s.approvals[id])
    ensures id in Decide(s, k, v).approvals && RowStep(s.approvals[id], Decide(s, k, v).approvals[id])
        && RowOk(Decide(s, k, v).approvals[id])
  {
    hide LockedOut, Repeats, Owner;
  }

  ghost predicate RowMoves(s: State, t: State, id: string)
    requires id in s.approvals
  {
    id in t.approvals && RowStep(s.approvals[id], t.approvals[id]) && RowOk(t.approvals[id])
  }

  lemma RowRequested(s: State, k: string, kind: Kind, caseId: string, session: Option<string>, action: Action,
      expires: int, now: int, id: string)
    requires id in s.approvals && RowOk(s.approvals[id])
    ensures RowMoves(s, Sweep(s, now), id) && RowMoves(s, Request(s, k, kind, caseId, session, action, expires, now),
        id)
  {
    hide Conflicts;
  }

  lemma RowClosed(s: State, k: string, caseId: string, session: string, action: Action, now: int, id: string)
    requires id in s.approvals && RowOk(s.approvals[id])
    ensures RowMoves(s, Cleanup(s, k, caseId, session), id) && RowMoves(s, ConsumePush(s, k, action, now), id)
    ensures RowMoves(s, Revoke(s, k), id) && RowMoves(s, ConsumeMeeting(s, k), id)
  {
    hide Owner;
  }

  lemma RowsStep(s: State, e: Event, id: string)
    requires Inv(s) && id in s.approvals
    ensures id in Apply(s, e).approvals && RowStep(s.approvals[id], Apply(s, e).approvals[id])
        && RowOk(Apply(s, e).approvals[id])
  {
    assert RowOk(s.approvals[id]);
    hide Inv, Decide, Request, Sweep, Cleanup, ConsumePush, Revoke, ConsumeMeeting, RowOk;
    match e
    case RequestApproval(k, kind, caseId, session, action, expires, now) => RowRequested(s, k, kind, caseId, session,
        action, expires, now, id);
    case DecideApproval(k, v) => RowDecided(s, k, v, id);
    case ConsumePushApproval(k, action, now) => RowClosed(s, k, "", "", action, now, id);
    case CleanupSession(k, caseId, session) => RowClosed(s, k, caseId, session, Other(""), 0, id);
    case LockExpiry(_) =>
    case RevokeApproval(k) => RowClosed(s, k, "", "", Other(""), 0, id);
    case ConsumeMeetingApproval(k) => RowClosed(s, k, "", "", Other(""), 0, id);
    case ExpireOverdue(now) => RowRequested(s, id, Lease, "", None, Other(""), 0, now, id);
  }

  lemma NewRow(s: State, e: Event, id: string)
    requires id !in s.approvals && id in Apply(s, e).approvals
    ensures e.RequestApproval? && id == e.id && !Conflicts(Sweep(s, e.now), e.kind, e.caseId, e.action)
    ensures Apply(s, e).approvals[id] == Approval(e.kind, e.caseId, e.session, e.action, Requested, e.expires, None,
        false)
    ensures forall j | j in s.approvals :: Apply(s, e).approvals[j] == Sweep(s, e.now).approvals[j]
  {}

  lemma OneActiveStep(s: State, e: Event)
    requires Inv(s)
    ensures OneActive(Apply(s, e))
  {
    var t := Apply(s, e);
    hide Apply, Inv;
    forall i, j | i in t.approvals && j in t.approvals && Active(t.approvals[i]) && Active(t.approvals[j]) &&
                  t.approvals[i].kind == t.approvals[j].kind && t.approvals[i].caseId == t.approvals[j].caseId &&
                  t.approvals[i].action == t.approvals[j].action
      ensures i == j
    {
      ActivePair(s, e, i, j);
    }
  }

  lemma ActivePair(s: State, e: Event, i: string, j: string)
    requires Inv(s) && i in Apply(s, e).approvals && j in Apply(s, e).approvals
    requires var t := Apply(s, e);
             Active(t.approvals[i]) && Active(t.approvals[j]) && t.approvals[i].kind == t.approvals[j].kind &&
             t.approvals[i].caseId == t.approvals[j].caseId && t.approvals[i].action == t.approvals[j].action
    ensures i == j
  {
    if i in s.approvals { RowsStep(s, e, i); }
    if j in s.approvals { RowsStep(s, e, j); }
    if i !in s.approvals { NewRow(s, e, i); }
    if j !in s.approvals { NewRow(s, e, j); }
    hide Apply;
  }

  lemma HistoriesStep(s: State, e: Event)
    requires Inv(s)
    ensures Histories(Apply(s, e))
  {
    var t := Apply(s, e);
    assert t.decided == s.decided || (e.DecideApproval? && t.decided == s.decided + [e.id]
        && s.approvals[e.id].decision.None?
                                      && t.approvals[e.id].decision.Some?) by {
      if e.DecideApproval? && e.id in s.approvals { assert RowOk(s.approvals[e.id]); }
    }
    assert t.pushed == s.pushed || (e.ConsumePushApproval? && t.pushed == s.pushed + [e.id]
        && !s.approvals[e.id].consumed
                                    && t.approvals[e.id].consumed);
    forall id | id in s.approvals ensures id in t.approvals && RowStep(s.approvals[id], t.approvals[id]) {
      RowsStep(s, e, id);
    }
    hide Apply, Inv;
  }

  lemma StepKeeps(s: State, e: Event)
    requires Inv(s)
    ensures Inv(Apply(s, e))
  {
    OneActiveStep(s, e);
    HistoriesStep(s, e);
    forall id | id in Apply(s, e).approvals ensures RowOk(Apply(s, e).approvals[id]) {
      if id in s.approvals { RowsStep(s, e, id); } else { NewRow(s, e, id); }
    }
    hide Apply, OneActive, Histories, RowOk;
  }

  lemma {:induction false} RunKeeps(es: seq<Event>)
    ensures Inv(Run(es))
  {
    if es != [] {
      hide Inv, Apply;
      RunKeeps(es[..|es| - 1]);
      StepKeeps(Run(es[..|es| - 1]), es[|es| - 1]);
    }
  }

  lemma RunSnoc(es: seq<Event>, e: Event)
    ensures Run(es + [e]) == Apply(Run(es), e)
  {
    assert (es + [e])[..|es|] == es;
  }

  // ---- theorems -----------------------------------------------------------------------------------------------

  // Two sessions that hold valid leases under one holder of the lock are one session.
  lemma SameHolder(s: State, t: State, c: string, a: string, now: int, d: string, b: string, later: int)
    requires HoldsLease(s, c, a, now) && HoldsLease(t, d, b, later) && Holds(t, s.lock.value)
    ensures c == d && a == b
  {
    OwnerNamesSession(c, a, if c == d then b else a);
  }

  /** A valid lease ends at most 240 minutes after its decision, and with its lock. */
  lemma LeaseIsBounded(es: seq<Event>, id: string, c: string, session: string, now: int)
    requires ValidRow(Run(es), id, c, session, now)
    ensures var s := Run(es); var a := s.approvals[id];
            && a.decision.Some? && a.decision.value.approved
            && now < a.expires <= a.decision.value.at + 240 * 60 && s.lock.value.expires == a.expires
  {
    RunKeeps(es);
    assert RowOk(Run(es).approvals[id]);
  }

  predicate Holds(s: State, held: Lock) {
    s.lock.Some? && s.lock.value.owner == held.owner && s.lock.value.caseId == held.caseId
  }

  // The step is a cleanup that took effect: it found the lock held, consumed the one closable lease of
  // the session that holds it, and removed the lock.
  ghost predicate Releases(s: State, e: Event, held: Lock) {
    && e.CleanupSession? && held.owner == Owner(e.caseId, Some(e.name)) && held.caseId == e.caseId
    && Holds(s, held) && e.id in s.approvals && Closable(s.approvals[e.id], e.caseId, e.name)
    && Apply(s, e) == SetRow(s, e.id, s.approvals[e.id].(status := Consumed, consumed := true)).(lock := None)
  }

  lemma LockStep(s: State, e: Event, held: Lock)
    requires Holds(s, held)
    ensures Holds(Apply(s, e), held) || Releases(s, e, held)
  {}

  /** The lock of one session, expired or not, is never taken over: in every continuation of a run it is
      still held by the same session and Case, or a cleanup of that very session took effect. */
  lemma {:induction false} LockIsNeverTakenOver(es: seq<Event>, more: seq<Event>)
    requires Run(es).lock.Some?
    ensures Holds(Run(es + more), Run(es).lock.value) ||
            exists k :: 0 <= k < |more| && Releases(Run(es + more[..k]), more[k], Run(es).lock.value)
    decreases |more|
  {
    hide Run, Apply, Releases;
    var held := Run(es).lock.value;
    if more == [] {
      assert es + more == es;
    } else {
      var front, e := more[..|more| - 1], more[|more| - 1];
      LockIsNeverTakenOver(es, front);
      if Holds(Run(es + front), held) {
        assert es + more == (es + front) + [e];
        RunSnoc(es + front, e);
        LockStep(Run(es + front), e, held);
        assert more[..|more| - 1] == front;
      } else {
        var k :| 0 <= k < |front| && Releases(Run(es + front[..k]), front[k], held);
        assert front[..k] == more[..k] && front[k] == more[k];
      }
    }
  }

  /** The board changes hands only through a cleanup that took effect: if one session holds a valid
      lease and, in the same state or any later one, another does, then in between the lease of the
      first was consumed and its lock removed. In one state, then, at most one session holds a lease. */
  lemma HandoverNeedsCleanup(es: seq<Event>, more: seq<Event>, c: string, a: string, now: int, d: string, b: string,
      later: int)
    requires HoldsLease(Run(es), c, a, now) && HoldsLease(Run(es + more), d, b, later) && (c != d || a != b)
    ensures exists k :: 0 <= k < |more| && Releases(Run(es + more[..k]), more[k], Run(es).lock.value)
  {
    var s, t := Run(es), Run(es + more);
    assert s.lock.Some? && s.lock.value.owner == Owner(c, Some(a)) && s.lock.value.caseId == c;
    assert t.lock.Some? && t.lock.value.owner == Owner(d, Some(b)) && t.lock.value.caseId == d;
    hide Run, Owner, Releases;
    LockIsNeverTakenOver(es, more);
    if Holds(t, s.lock.value) { SameHolder(s, t, c, a, now, d, b, later); }
  }

  /** A decision is never flipped or rewritten: every later state has the same decision, and the row
      never has the opposite status or is pending again. */
  lemma {:induction false} DecisionIsFinal(es: seq<Event>, more: seq<Event>, id: string)
    requires id in Run(es).approvals && Run(es).approvals[id].decision.Some?
    ensures var a := Run(es).approvals[id];
            && id in Run(es + more).approvals
            && var b := Run(es + more).approvals[id];
               && b.decision == a.decision && !b.status.Requested?
               && (a.decision.value.approved ==> !b.status.Denied?) && (!a.decision.value.approved ==>
                   !b.status.Approved?)
    decreases |more|
  {
    hide Run, Apply;
    if more == [] {
      assert es + more == es;
      RunKeeps(es);
      assert RowOk(Run(es).approvals[id]);
    } else {
      var front, e := more[..|more| - 1], more[|more| - 1];
      DecisionIsFinal(es, front, id);
      assert es + more == (es + front) + [e];
      RunSnoc(es + front, e);
      RunKeeps(es + front);
      RowsStep(Run(es + front), e, id);
    }
  }

  /** Each row is decided at most once, and each push approval is consumed at most once. */
  lemma EffectsHappenOnce(es: seq<Event>, i: nat, j: nat)
    ensures i < j < |Run(es).decided| ==> Run(es).decided[i] != Run(es).decided[j]
    ensures i < j < |Run(es).pushed| ==> Run(es).pushed[i] != Run(es).pushed[j]
  {
    RunKeeps(es);
  }

  /** Repeating a decision changes nothing, whether it is acknowledged or refused. */
  lemma RepeatedDecisionHasNoEffect(es: seq<Event>, id: string, v: Verdict)
    requires id in Run(es).approvals && Run(es).approvals[id].decision.Some? && Run(es).approvals[id].expires > v.now
    ensures Decide(Run(es), id, v) == Run(es) && !DecideAnswer(Run(es), id, v).Decided?
  {
    RunKeeps(es);
    assert RowOk(Run(es).approvals[id]);
  }

  /** At most one request for the same action of a Case is pending or approved. */
  lemma OneActivePerAction(es: seq<Event>, i: string, j: string)
    requires var s := Run(es); i in s.approvals && j in s.approvals && Active(s.approvals[i]) && Active(s.approvals[j])
    requires var s := Run(es); s.approvals[i].kind == s.approvals[j].kind && s.approvals[i].caseId ==
                               s.approvals[j].caseId && s.approvals[i].action == s.approvals[j].action
    ensures i == j
  {
    RunKeeps(es);
  }

  // ---- the tables as the source updates them ----------------------------------------------------------------------

  datatype LeaseAnswer = NoLease | Held(id: string) | BadEstimate

  class Store {
    var approvals: map<string, Approval>
    var lock: Option<Lock>
    ghost var decided: seq<string>
    ghost var pushed: seq<string>

    ghost function Tables(): State
      reads this
    {
      State(approvals, lock, decided, pushed)
    }

    constructor ()
      ensures Tables() == Init()
    {
      approvals, lock, decided, pushed := map[], None, [], [];
    }

    method RequestApproval(id: string, kind: Kind, caseId: string, session: Option<string>, action: Action,
        expires: int, now: int)
      returns (row: string, created: bool)
      requires id !in approvals
      modifies this`approvals
      ensures Tables() == Request(old(Tables()), id, kind, caseId, session, action, expires, now)
      ensures row in approvals && Active(approvals[row]) && approvals[row].kind == kind
          && approvals[row].caseId == caseId && approvals[row].action == action
      ensures created <==> row == id
    {
      SweepOverdue(now);
      ghost var swept := Tables();
      assert id !in approvals;
      var found := FindActive(kind, caseId, action);
      hide Sweep;
      if found.Some? { return found.value, false; }
      approvals := approvals[id := Approval(kind, caseId, session, action, Requested, expires, None, false)];
      assert Tables() == SetRow(swept, id, approvals[id]);
      return id, true;
    }

    method SweepOverdue(now: int)
      modifies this`approvals
      ensures Tables() == Sweep(old(Tables()), now)
    {
      approvals := map k | k in approvals :: if Active(approvals[k]) && approvals[k].expires <= now
                                             then approvals[k].(status := Expired) else approvals[k];
    }

    method FindActive(kind: Kind, caseId: string, action: Action) returns (found: Option<string>)
      ensures found.Some? <==> Conflicts(Tables(), kind, caseId, action)
      ensures found.Some? ==> found.value in approvals && Active(approvals[found.value])
                              && approvals[found.value].kind == kind &&
                              approvals[found.value].caseId == caseId && approvals[found.value].action == action
    {
      if exists k | k in approvals :: Active(approvals[k]) && approvals[k].kind == kind && approvals[k].caseId == caseId
                                      && approvals[k].action == action {
        var k :| k in approvals && Active(approvals[k]) && approvals[k].kind == kind && approvals[k].caseId == caseId
            && approvals[k].action == action;
        return Some(k);
      }
      return None;
    }

    method DecideApproval(id: string, v: Verdict) returns (answer: Answer)
      modifies this
      ensures answer == DecideAnswer(old(Tables()), id, v)
      ensures Tables() == Decide(old(Tables()), id, v)
    {
      if !v.trusted || id !in approvals || approvals[id].action != v.action { return Raised; }
      var a := approvals[id];
      if a.status.Approved? || a.status.Denied? {
        if a.status.Approved? && a.expires <= v.now {
          approvals := approvals[id := a.(status := Expired)];
          return Raised;
        }
        return if Repeats(a, v) then Replayed else Raised;
      }
      if !a.status.Requested? { return Raised; }
      if a.expires <= v.now {
        approvals := approvals[id := a.(status := Expired)];
        return Raised;
      }
      var expires := a.expires;
      if v.approve && a.kind.Lease? {
        if !a.action.Board? { return Raised; }
        expires := v.now + 60 * a.action.minutes;
        var owner := Owner(a.caseId, a.session);
        if lock.Some? && (lock.value.owner != owner || lock.value.caseId != a.caseId) { return Raised; }
        lock := Some(Lock(owner, a.caseId, expires));
      } else if v.approve && a.kind.WipPush? {
        expires := v.now + 60 * v.pushMinutes;
      }
      approvals := approvals[id := a.(
        status := if v.approve then Approved else Denied, expires := expires,
        decision := Some(Decision(v.approve, v.now, v.channel, v.identity, v.text)))];
      decided := decided + [id];
      return Decided;
    }

    method ConsumePushApproval(id: string, action: Action, now: int) returns (ok: bool)
      modifies this
      ensures ok <==> PushValid(old(Tables()), id, action, now)
      ensures Tables() == ConsumePush(old(Tables()), id, action, now)
    {
      if id !in approvals { return false; }
      var a := approvals[id];
      if !a.kind.WipPush? || !a.status.Approved? || a.consumed || a.action != action || a.expires <= now {
        return false;
      }
      approvals := approvals[id := a.(status := Consumed, consumed := true)];
      pushed := pushed + [id];
      return true;
    }

    /** The rows are examined one by one; an estimate outside 1..240 minutes raises. A lease is
        reported only if it is valid, and denied only if there is none. */
    method ValidBoardLease(caseId: string, session: string, now: int) returns (r: LeaseAnswer)
      ensures r.Held? ==> ValidRow(Tables(), r.id, caseId, session, now)
      ensures r.NoLease? ==> !HoldsLease(Tables(), caseId, session, now)
      ensures r.BadEstimate? ==>
                exists id :: id in approvals && LeaseRow(approvals[id], caseId, session, now) &&
                  LockFits(Tables(), approvals[id], caseId, session, now) && !EstimateInRange(approvals[id].action)
    {
      var rest := approvals.Keys;
      while rest != {}
        invariant rest <= approvals.Keys
        invariant forall id | id in approvals && id !in rest :: !ValidRow(Tables(), id, caseId, session, now)
        decreases rest
      {
        var id :| id in rest;
        var a := approvals[id];
        if LeaseRow(a, caseId, session, now) && lock.Some? && lock.value.owner == Owner(caseId, Some(session)) &&
           lock.value.caseId == caseId && lock.value.expires > now && lock.value.expires == a.expires {
          if !a.action.Board? || !(1 <= a.action.minutes <= 240) { return BadEstimate; }
          if a.action == Board(caseId, session, a.action.minutes, "") { return Held(id); }
        }
        rest := rest - {id};
      }
      return NoLease;
    }
  }
}
