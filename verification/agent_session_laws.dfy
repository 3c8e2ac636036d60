/**
 Requests and their answers on one connection: what each frame does, and that a request is answered
 once, by the response to it alone.
 */
module AgentSessionLaws {
  import opened Options
  import opened AgentSession

  /** What each frame does: the frames that are refused, and for the others the whole new state. */
  lemma ReceivesExactly(s: Session, m: Message)
    ensures Receive(s, m) ==
              match m
              case Invalid => None
              case Notification => Some(s)
              case Request(permission, session, _) =>
                if permission && (s.id.None? || session != s.id) then None
                else Some(s.(denied := s.denied || permission))
              case Updated(u) =>
                if s.id.Some? && u.session == s.id && u.wellFormed
                then Some(s.(accepted := s.accepted + [u], toolFailed := s.toolFailed || u.toolFailed))
                else if s.id.None? && s.pending.Some? && s.pending.value.newSession && |s.early| < 32
                     && u.session.Some? && u.wellFormed
                then Some(s.(early := s.early + [u]))
                else None
              case Response(id, hasResult, hasError, isObject) =>
                if s.pending.Some? && id == Some(s.pending.value.id) && !s.answered && hasResult && !hasError
                    && isObject
                then Some(s.(answered := true))
                else None
  {}

  /** A request begins, under the next number and unanswered, if and only if none is outstanding and it
      does not ask for a second session. */
  lemma BeginsIff(s: Session, newSession: bool)
    ensures Apply(s, BeginRequest(newSession)) ==
              if s.pending == None && (newSession ==> s.id == None)
              then s.(pending := Some(Pending(s.sequence + 1, newSession)), sequence := s.sequence + 1,
                   answered := false)
              else s
  {}

  // ---- the early batch ------------------------------------------------------------------------------

  // The first n updates name the session and were handed on; no further one was.
  ghost predicate Replayed(s: Session, t: Session, us: seq<Update>, n: nat) {
    && n <= |us| && t.accepted == s.accepted + us[..n]
    && (forall i | 0 <= i < n :: us[i].session == s.id && us[i].wellFormed)
    && (n < |us| ==> us[n].session != s.id || !us[n].wellFormed)
    && (t.toolFailed <==> s.toolFailed || exists i :: 0 <= i < n && us[i].toolFailed)
  }

  lemma ReplayedFirst(s: Session, next: Session, t: Session, us: seq<Update>, k: nat)
    requires us != [] && us[0].session == s.id && us[0].wellFormed && Replayed(next, t, us[1..], k)
    requires next == s.(accepted := s.accepted + [us[0]], toolFailed := s.toolFailed || us[0].toolFailed)
    ensures Replayed(s, t, us, k + 1)
  {
    assert us[..k + 1] == [us[0]] + us[1..][..k];
    assert forall i | 0 < i <= k :: us[i] == us[1..][i - 1];
    assert forall i | 0 <= i < k :: us[1..][i] == us[i + 1];
  }

  lemma {:induction false} ReplayStops(s: Session, us: seq<Update>) returns (n: nat)
    ensures Replayed(s, AcceptAll(s, us).0, us, n) && (AcceptAll(s, us).1 <==> n == |us|)
    decreases |us|
  {
    n := 0;
    if us != [] && us[0].session == s.id && us[0].wellFormed {
      var next := Accept(s, us[0]).value;
      var k := ReplayStops(next, us[1..]);
      hide Replayed;
      ReplayedFirst(s, next, AcceptAll(s, us).0, us, k);
      n := k + 1;
    }
  }

  /** Establishing a session hands the early batch on, in order, up to the first update that names another
      session; the batch is dropped exactly when there is none. */
  lemma EstablishStops(es: seq<Event>, id: string)
    requires Run(es).id.None? && 1 <= |id| <= 256
    ensures var s, t := Run(es), Run(es + [NewSession(id)]);
            exists n: nat :: Replayed(s.(id := Some(id)), t, s.early, n) &&
              t == s.(id := Some(id), accepted := t.accepted, toolFailed := t.toolFailed,
                      early := if n == |s.early| then [] else s.early)
  {
    var s := Run(es);
    RunSnoc(es, NewSession(id));
    RunKeeps(es);
    AcceptAllKeeps(s.(id := Some(id)), s.early);
    var n := ReplayStops(s.(id := Some(id)), s.early);
    var t := Run(es + [NewSession(id)]);
    assert Replayed(s.(id := Some(id)), t, s.early, n);
    hide Replayed;
  }

  // ---- one answer to each request ----------------------------------------------------------------------

  // The frame at i is the answer to the request numbered id: a response with a result and no error, read
  // while that request is outstanding and unanswered.
  ghost predicate Answers(es: seq<Event>, i: nat, id: int) {
    && i < |es| && es[i] == Frame(Response(Some(id), true, false, true))
    && (var s := Run(es[..i]); s.pending.Some? && s.pending.value.id == id && !s.answered)
  }

  lemma RunSnoc(es: seq<Event>, e: Event)
    ensures Run(es + [e]) == Apply(Run(es), e)
  {
    assert (es + [e])[..|es|] == es;
  }

  lemma RequestStep(s: Session, e: Event)
    requires Inv(s)
    ensures var t := Apply(s, e);
            if e.BeginRequest? && t != s
            then t.sequence == s.sequence + 1 && !t.answered && t.pending.Some? && t.pending.value.id == t.sequence
            else
              && t.sequence == s.sequence && (t.pending == s.pending || t.pending.None?)
              && (t.answered <==> s.answered || (s.pending.Some? && e ==
                                  Frame(Response(Some(s.pending.value.id), true, false, true))))
  {
    if e.NewSession? && s.id.None? && s.accepted == [] { AcceptAllKeeps(s.(id := Some(e.id)), s.early); }
  }

  lemma {:induction false} NumberIsTheLast(es: seq<Event>)
    ensures Run(es).pending.Some? ==> Run(es).pending.value.id == Run(es).sequence
  {
    if es != [] {
      var front := es[..|es| - 1];
      NumberIsTheLast(front);
      RunKeeps(front);
      RequestStep(Run(front), es[|es| - 1]);
      hide Apply;
    }
  }

  lemma {:induction false} NumbersGrow(es: seq<Event>, i: nat)
    requires i <= |es|
    ensures Run(es[..i]).sequence <= Run(es).sequence
    decreases |es|
  {
    if i == |es| {
      assert es[..i] == es;
    } else {
      var front := es[..|es| - 1];
      assert front[..i] == es[..i];
      NumbersGrow(front, i);
      RunKeeps(front);
      RequestStep(Run(front), es[|es| - 1]);
      hide Apply;
    }
  }

  /** The outstanding request counts as answered if and only if some frame was its answer. */
  lemma {:induction false} AnsweredIff(es: seq<Event>)
    requires Run(es).pending.Some?
    ensures Run(es).answered <==> exists i: nat :: Answers(es, i, Run(es).pending.value.id)
    decreases |es|
  {
    if es != [] {
      var n := |es| - 1;
      var front, e, id := es[..n], es[n], Run(es).pending.value.id;
      var s := Run(front);
      RunKeeps(front);
      RequestStep(s, e);
      NumberIsTheLast(es);
      assert Run(es) == Apply(s, e);
      hide Apply, Run;
      forall i: nat | i < n ensures es[..i] == front[..i] {}
      if e.BeginRequest? && Run(es) != s {
        forall i: nat ensures !Answers(es, i, id) {
          if i < n {
            NumberIsTheLast(es[..i]);
            NumbersGrow(front, i);
          }
        }
      } else {
        AnsweredIff(front);
        if i: nat :| Answers(front, i, id) { assert Answers(es, i, id); }
        if i: nat :| Answers(es, i, id) { assert i < n ==> Answers(front, i, id); }
        assert Run(es).answered && !s.answered ==> Answers(es, n, id);
      }
    }
  }

  /** No request is answered twice. */
  lemma AnsweredOnce(es: seq<Event>, i: nat, j: nat, id: int)
    requires Answers(es, i, id) && Answers(es, j, id)
    ensures i == j
  {
    if i != j {
      var a, b := if i < j then i else j, if i < j then j else i;
      assert es[..b][..a] == es[..a];
      assert Answers(es[..b], a, id);
      AnsweredIff(es[..b]);
    }
  }
}
