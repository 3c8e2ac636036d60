/**
 The session state of one agent connection: one outstanding request, at most one session, and a
 bounded batch of updates that arrive before the session's identity is known.
 */
module AgentSession {
  import opened Options

  datatype Update = Update(session: Option<string>, wellFormed: bool, toolFailed: bool)
  datatype Pending = Pending(id: int, newSession: bool)

  // A decoded frame. A frame that does not decode to a valid envelope is Invalid; `reply` is the length
  // of the packet that answers a request.
  datatype Message =
    | Invalid
    | Request(permission: bool, session: Option<string>, reply: nat)
    | Updated(update: Update)
    | Notification
    | Response(id: Option<int>, hasResult: bool, hasError: bool, isObject: bool)

  // `accepted` is history: the updates handed to the owner's callback.
  datatype Session = Session(
    id: Option<string>, pending: Option<Pending>, answered: bool, sequence: nat,
    early: seq<Update>, accepted: seq<Update>, denied: bool, toolFailed: bool)

  function Init(): Session { Session(None, None, false, 0, [], [], false, false) }

  const EARLY_LIMIT := 32

  // None is a raised error.
  function Accept(s: Session, u: Update): Option<Session> {
    if u.session != s.id || !u.wellFormed then None
    else Some(s.(accepted := s.accepted + [u], toolFailed := s.toolFailed || u.toolFailed))
  }

  function Receive(s: Session, m: Message): Option<Session> {
    match m
    case Invalid => None
    case Request(permission, session, _) =>
      if !permission then Some(s)
      else if s.id.None? || session != s.id then None
      else Some(s.(denied := true))
    case Updated(u) =>
      if s.id.Some? then Accept(s, u)
      else if s.pending.None? || !s.pending.value.newSession || u.session.None? || !u.wellFormed
           || |s.early| >= EARLY_LIMIT then None
      else Some(s.(early := s.early + [u]))
    case Notification => Some(s)
    case Response(id, hasResult, hasError, isObject) =>
      if id.None? || s.pending.None? || id.value != s.pending.value.id || s.answered || hasResult == hasError
          || hasError || !isObject then None
      else Some(s.(answered := true))
  }

  function Begin(s: Session, newSession: bool): Session {
    if s.pending.Some? || (newSession && s.id.Some?) then s
    else s.(sequence := s.sequence + 1, pending := Some(Pending(s.sequence + 1, newSession)), answered := false)
  }

  function End(s: Session): Session { s.(pending := None) }

  // The early updates, replayed in order until one names another session.
  function AcceptAll(s: Session, us: seq<Update>): (Session, bool)
    decreases |us|
  {
    if us == [] then (s, true)
    else
      var next := Accept(s, us[0]);
      if next.None? then (s, false) else AcceptAll(next.value, us[1..])
  }

  // `new_session` after its response; a raised error leaves the early batch in place.
  function Establish(s: Session, id: string): Session {
    if s.id.Some? || !(1 <= |id| <= 256) then s
    else
      var r := AcceptAll(s.(id := Some(id)), s.early);
      if r.1 then r.0.(early := []) else r.0
  }

  // ---- runs ---------------------------------------------------------------------------------------

  datatype Event = Frame(message: Message) | BeginRequest(newSession: bool) | EndRequest | NewSession(id: string)

  // A rejected frame raises: the connection's state stays as it was.
  function Apply(s: Session, e: Event): Session {
    match e
    case Frame(m) => var r := Receive(s, m); if r.Some? then r.value else s
    case BeginRequest(n) => Begin(s, n)
    case EndRequest => End(s)
    case NewSession(id) => Establish(s, id)
  }

  function Run(es: seq<Event>): Session {
    if es == [] then Init() else Apply(Run(es[..|es| - 1]), es[|es| - 1])
  }

  ghost predicate Inv(s: Session) {
    && |s.early| <= EARLY_LIMIT
    && (s.accepted != [] ==> s.id.Some?)
    && (forall i | 0 <= i < |s.accepted| :: s.accepted[i].session == s.id && s.accepted[i].wellFormed)
  }

  lemma {:induction false} AcceptAllKeeps(s: Session, us: seq<Update>)
    requires Inv(s) && s.id.Some?
    ensures Inv(AcceptAll(s, us).0) && AcceptAll(s, us).0.id == s.id && AcceptAll(s, us).0.early == s.early
    ensures var t := AcceptAll(s, us).0;
            t == s.(accepted := t.accepted, toolFailed := t.toolFailed)
                && (AcceptAll(s, us).1 ==> t.accepted == s.accepted + us)
    ensures AcceptAll(s, us).1 <==> forall i | 0 <= i < |us| :: us[i].session == s.id && us[i].wellFormed
    decreases |us|
  {
    if us != [] {
      var next := Accept(s, us[0]);
      if next.Some? {
        AcceptAllKeeps(next.value, us[1..]);
        assert us == [us[0]] + us[1..];
      }
    }
  }

  lemma StepKeeps(s: Session, e: Event)
    requires Inv(s)
    ensures Inv(Apply(s, e)) && (s.id.Some? ==> Apply(s, e).id == s.id)
  {
    if e.NewSession? && s.id.None? {
      assert s.accepted == [];
      AcceptAllKeeps(s.(id := Some(e.id)), s.early);
    }
  }

  lemma {:induction false} RunKeeps(es: seq<Event>)
    ensures Inv(Run(es))
  {
    if es != [] {
      RunKeeps(es[..|es| - 1]);
      StepKeeps(Run(es[..|es| - 1]), es[|es| - 1]);
    }
  }

  /** In every run the early batch holds at most 32 updates, and every update handed on names the
      established session, also those that arrived before its identity was known. */
  lemma UpdatesBelongToTheSession(es: seq<Event>, i: nat)
    ensures |Run(es).early| <= 32
    ensures i < |Run(es).accepted| ==> Run(es).id.Some? && Run(es).accepted[i].session == Run(es).id
  {
    RunKeeps(es);
  }

  /** The identity is chosen once. */
  lemma {:induction false} IdentityIsFinal(es: seq<Event>, more: seq<Event>)
    requires Run(es).id.Some?
    ensures Run(es + more).id == Run(es).id
    decreases |more|
  {
    if more == [] {
      assert es + more == es;
    } else {
      var front, e := more[..|more| - 1], more[|more| - 1];
      IdentityIsFinal(es, front);
      assert (es + more)[..|es + more| - 1] == es + front;
      RunKeeps(es + front);
      StepKeeps(Run(es + front), e);
    }
  }

  /** Establishing a session accepts the whole early batch exactly when all of it names that session. */
  lemma EstablishReplaysTheBatch(s: Session, id: string)
    requires Inv(s) && s.id.None? && 1 <= |id| <= 256
    ensures var t := Establish(s, id);
            t.id == Some(id) &&
            if forall i | 0 <= i < |s.early| :: s.early[i].session == Some(id) && s.early[i].wellFormed
            then t.early == [] && t.accepted == s.accepted + s.early
            else t.early == s.early
  {
    assert s.accepted == [];
    AcceptAllKeeps(s.(id := Some(id)), s.early);
  }
}
