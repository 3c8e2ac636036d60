/** The connection as the source runs it: buffers changed in place, proved against the model. */
module FramingStore {
  import opened Options
  import opened AgentSession
  import opened Framing

  class Connection {
    const limits: Limits
    var incoming: Bytes
    var outgoing: nat
    var outputBytes: nat
    var session: Session
    var fault: Option<Fault>
    ghost var delivered: seq<Bytes>

    ghost function Value(): Conn
      reads this
    {
      Conn(incoming, outgoing, outputBytes, delivered, session, fault)
    }

    constructor (limits: Limits)
      requires ValidLimits(limits)
      ensures this.limits == limits && Value() == Conn([], 0, 0, [], Init(), None)
    {
      this.limits := limits;
      incoming, outgoing, outputBytes, session, fault, delivered := [], 0, 0, Init(), None, [];
    }

    method FindNewline() returns (n: nat)
      ensures n == Index(incoming)
    {
      n := 0;
      while n < |incoming| && incoming[n] != NEWLINE
        invariant n <= |incoming| && forall k | 0 <= k < n :: incoming[k] != NEWLINE
      {
        n := n + 1;
      }
    }

    // The part of `new_session` after its response: the identity, then the early batch in order.
    method NewSession(id: string) returns (ok: bool)
      modifies this`session
      ensures session == Establish(old(session), id)
      ensures ok <==> old(session).id.None? && 1 <= |id| <= 256 && AcceptAll(old(session).(id := Some(id)),
                      old(session).early).1
    {
      if session.id.Some? || !(1 <= |id| <= 256) { return false; }
      session := session.(id := Some(id));
      var early, i := session.early, 0;
      while i < |early|
        invariant 0 <= i <= |early| && session.early == early
        invariant AcceptAll(session, early[i..]) == AcceptAll(old(session).(id := Some(id)), early)
      {
        assert early[i..][0] == early[i] && early[i..][1..] == early[i + 1..];
        var next := Accept(session, early[i]);
        if next.None? { return false; }
        session := next.value;
        i := i + 1;
      }
      session := session.(early := []);
      return true;
    }

    // One ready stream of the selector.
    method Pump(io: Io, decode: Decoder)
      requires fault.None?
      modifies this
      ensures Value() == Turn(old(Value()), io, limits, decode)
    {
      hide Drain;
      match io
      case Stdin(written) =>
        outgoing := outgoing - Min(written, Min(outgoing, WRITE_LIMIT));
      case BrokenPipe =>
        fault := Some(InputClosed);
      case Stderr(data) =>
        outputBytes := outputBytes + |data|;
        if data != [] && outputBytes > limits.output { fault := Some(OutputLimit); }
      case Stdout(data) =>
        if data == [] {
          fault := Some(OutputClosed);
          return;
        }
        outputBytes := outputBytes + |data|;
        if outputBytes > limits.output {
          fault := Some(OutputLimit);
          return;
        }
        incoming := incoming + data;
        HandOn(decode);
    }

    // One frame and the room for its reply.
    method Receives(m: Message) returns (ok: bool)
      requires fault.None?
      modifies this`session, this`outgoing, this`fault
      ensures var t := Take(old(session), old(outgoing), m, limits.frame);
              if t.Taken? then ok && session == t.session && outgoing == t.outgoing && fault.None?
              else !ok && session == t.session && outgoing == old(outgoing) && fault == Some(t.fault)
    {
      var r := Receive(session, m);
      if r.None? {
        fault := Some(FrameRejected);
        return false;
      }
      session := r.value;
      if m.Request? {
        if outgoing + m.reply > limits.frame {
          fault := Some(ReplyLimit);
          return false;
        }
        outgoing := outgoing + m.reply;
      }
      return true;
    }

    // The frames of the buffer, one by one, and the bound on what is left.
    method HandOn(decode: Decoder)
      requires fault.None?
      modifies this
      ensures Value() == Drain(old(Value()), limits.frame, decode)
    {
      var n := FindNewline();
      hide Drain, Index, Take;
      while n < |incoming|
        invariant fault.None? && n == Index(incoming)
        invariant Drain(Value(), limits.frame, decode) == Drain(old(Value()), limits.frame, decode)
        decreases |incoming|
      {
        if n + 1 > limits.frame {
          DrainStops(Value(), limits.frame, decode);
          fault := Some(FrameLimit);
          return;
        }
        DrainTakes(Value(), limits.frame, decode);
        var frame := incoming[..n];
        incoming := incoming[n + 1..];
        delivered := delivered + [frame];
        var ok := Receives(decode(frame));
        if !ok { return; }
        n := FindNewline();
      }
      DrainStops(Value(), limits.frame, decode);
      if |incoming| >= limits.frame { fault := Some(FrameLimit); }
    }
  }
}
