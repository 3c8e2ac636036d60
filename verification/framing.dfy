/**
 Newline framing of an agent's output stream under a frame limit and a total output limit. Reads may
 split the stream anywhere. Every request in the stream is answered through a bounded reply buffer
 that only writes between the reads can empty, so whether read boundaries matter depends on it.
 */
module Framing {
  import opened Options
  import opened AgentSession

  type byte = b: int | 0 <= b < 256
  type Bytes = seq<byte>

  const NEWLINE: byte := 10

  // ---- the definition: splitting a whole stream ------------------------------------------------------

  function Index(s: Bytes): (n: nat)
    ensures n <= |s| && (n < |s| ==> s[n] == NEWLINE) && forall k | 0 <= k < n :: s[k] != NEWLINE
  {
    if s == [] || s[0] == NEWLINE then 0 else 1 + Index(s[1..])
  }

  function Lines(s: Bytes): seq<Bytes>
    decreases |s|
  {
    var n := Index(s);
    if n == |s| then [] else [s[..n]] + Lines(s[n + 1..])
  }

  function Tail(s: Bytes): Bytes
    decreases |s|
  {
    var n := Index(s);
    if n == |s| then s else Tail(s[n + 1..])
  }

  function Unlines(lines: seq<Bytes>): Bytes {
    if lines == [] then [] else lines[0] + [NEWLINE] + Unlines(lines[1..])
  }

  /** The split loses nothing: lines and tail spell the stream. */
  lemma {:induction false} SplitSpellsTheStream(s: Bytes)
    ensures Unlines(Lines(s)) + Tail(s) == s
    decreases |s|
  {
    var n := Index(s);
    hide Index;
    if n < |s| {
      var rest := s[n + 1..];
      SplitSpellsTheStream(rest);
      assert Lines(s)[0] == s[..n] && Lines(s)[1..] == Lines(rest) && Tail(s) == Tail(rest);
      assert Unlines(Lines(s)) == s[..n] + [NEWLINE] + Unlines(Lines(rest));
      hide Lines, Tail, Unlines;
      JoinThree(s[..n], [NEWLINE], Unlines(Lines(rest)), Tail(rest));
      assert s == s[..n] + [NEWLINE] + rest;
    }
  }

  lemma JoinThree(a: Bytes, b: Bytes, c: Bytes, d: Bytes)
    ensures a + b + c + d == a + b + (c + d)
  {}

  /** Neither the lines nor the tail holds a newline. */
  lemma {:induction false} LinesHoldNoNewline(s: Bytes, i: nat)
    ensures NEWLINE !in Tail(s)
    ensures i < |Lines(s)| ==> NEWLINE !in Lines(s)[i]
    decreases |s|
  {
    var n := Index(s);
    hide Index;
    if n < |s| { LinesHoldNoNewline(s[n + 1..], if i == 0 then 0 else i - 1); }
  }

  // ---- the connection -------------------------------------------------------------------------------------

  datatype Limits = Limits(frame: nat, output: nat)

  predicate ValidLimits(l: Limits) { 1 <= l.frame <= l.output <= 16777216 }

  // Why a connection failed.
  datatype Fault = FrameLimit | ReplyLimit | FrameRejected | OutputLimit | OutputClosed | InputClosed

  // `outgoing` is the length of the reply buffer; `delivered` is history: the frames handed to
  // `_receive`, oldest first.
  datatype Conn = Conn(incoming: Bytes, outgoing: nat, total: nat, delivered: seq<Bytes>, session: Session,
      fault: Option<Fault>)

  type Decoder = Bytes -> Message

  datatype Taken = Refused(session: Session, fault: Fault) | Taken(session: Session, outgoing: nat)

  function ReplyOf(m: Message): nat { if m.Request? then m.reply else 0 }

  // One frame: the session takes it, and the answer to a request must fit the reply buffer.
  function Take(s: Session, outgoing: nat, m: Message, limit: nat): Taken {
    var r := Receive(s, m);
    if r.None? then Refused(s, FrameRejected)
    else if m.Request? && outgoing + m.reply > limit then Refused(r.value, ReplyLimit)
    else Taken(r.value, outgoing + ReplyOf(m))
  }

  // The inner loop of a read: hand on complete frames, then bound what is left.
  function Drain(c: Conn, limit: nat, decode: Decoder): Conn
    decreases |c.incoming|
  {
    var n := Index(c.incoming);
    if n >= limit then c.(fault := Some(FrameLimit))
    else if n == |c.incoming| then c
    else
      var frame := c.incoming[..n];
      var next := c.(incoming := c.incoming[n + 1..], delivered := c.delivered + [frame]);
      match Take(c.session, c.outgoing, decode(frame), limit)
      case Refused(session, fault) => next.(session := session, fault := Some(fault))
      case Taken(session, outgoing) => Drain(next.(session := session, outgoing := outgoing), limit, decode)
  }

  // What one turn of the selector does: a read, or a write of some of the reply buffer.
  datatype Io = Stdout(data: Bytes) | Stderr(data: Bytes) | Stdin(written: nat) | BrokenPipe

  const READ_LIMIT := 16384
  const WRITE_LIMIT := 16384

  function Min(a: nat, b: nat): nat { if a <= b then a else b }

  // A read of either stream; an empty one is its end.
  function Read(c: Conn, data: Bytes, stdout: bool, l: Limits, decode: Decoder): Conn {
    var next := c.(total := c.total + |data|);
    if data == [] then (if stdout then c.(fault := Some(OutputClosed)) else c)
    else if next.total > l.output then next.(fault := Some(OutputLimit))
    else if stdout then Drain(next.(incoming := c.incoming + data), l.frame, decode)
    else next
  }

  function Turn(c: Conn, io: Io, l: Limits, decode: Decoder): Conn {
    if c.fault.Some? then c
    else
      match io
      case Stdout(data) => Read(c, data, true, l, decode)
      case Stderr(data) => Read(c, data, false, l, decode)
      case Stdin(written) => c.(outgoing := c.outgoing - Min(written, Min(c.outgoing, WRITE_LIMIT)))
      case BrokenPipe => c.(fault := Some(InputClosed))
  }

  function Turns(c: Conn, ios: seq<Io>, l: Limits, decode: Decoder): Conn {
    if ios == [] then c else Turn(Turns(c, ios[..|ios| - 1], l, decode), ios[|ios| - 1], l, decode)
  }

  /** What a turn that hands nothing on does: a write takes what was written off the replies, at most 16384
      and at most what is there; the end of the output and a broken pipe are faults, the end of the
      diagnostics is not; whatever is read counts towards the output limit, and diagnostics are dropped. */
  lemma TurnTells(c: Conn, io: Io, l: Limits, decode: Decoder)
    requires c.fault == None
    ensures match io
            case Stdin(written) =>
              && Turn(c, io, l, decode) == c.(outgoing := Turn(c, io, l, decode).outgoing)
              && Turn(c, io, l, decode).outgoing ==
                   (if written <= c.outgoing && written <= 16384 then c.outgoing - written
                    else if c.outgoing <= 16384 then 0
                    else c.outgoing - 16384)
            case BrokenPipe => Turn(c, io, l, decode) == c.(fault := Some(InputClosed))
            case Stderr(data) =>
              Turn(c, io, l, decode) ==
                c.(total := c.total + |data|, fault := if data != [] && c.total + |data| > l.output
                    then Some(OutputLimit) else None)
            case Stdout(data) =>
              && (data == [] ==> Turn(c, io, l, decode) == c.(fault := Some(OutputClosed)))
              && (data != [] && c.total + |data| > l.output ==>
                    Turn(c, io, l, decode) == c.(total := c.total + |data|, fault := Some(OutputLimit)))
  {
    hide Drain;
  }

  /** One frame is taken if and only if the session accepts it and the reply it calls for fits; a refused
      frame adds no reply. */
  lemma TakesIff(s: Session, outgoing: nat, m: Message, limit: nat)
    ensures var r := Receive(s, m);
            Take(s, outgoing, m, limit) ==
              match r
              case None => Refused(s, FrameRejected)
              case Some(next) =>
                if !m.Request? then Taken(next, outgoing)
                else if outgoing + m.reply <= limit then Taken(next, outgoing + m.reply)
                else Refused(next, ReplyLimit)
  {}

  lemma WriteTurn(c: Conn, written: nat, l: Limits, decode: Decoder)
    requires c.fault.None?
    ensures Turn(c, Stdin(written), l, decode) ==
        c.(outgoing := c.outgoing - Min(written, Min(c.outgoing, WRITE_LIMIT)))
  {
    hide Read;
  }

  lemma ReadTurn(c: Conn, data: Bytes, l: Limits, decode: Decoder)
    requires c.fault.None? && data != [] && c.total + |data| <= l.output
    ensures Turn(c, Stdout(data), l, decode) == Drain(c.(total := c.total + |data|, incoming := c.incoming + data),
        l.frame, decode)
  {
    hide Drain;
  }

  lemma TurnsSnoc(c: Conn, ios: seq<Io>, io: Io, l: Limits, decode: Decoder)
    ensures Turns(c, ios + [io], l, decode) == Turn(Turns(c, ios, l, decode), io, l, decode)
  {
    assert (ios + [io])[..|ios|] == ios;
  }

  // Everything read from the agent's output.
  function Output(ios: seq<Io>): Bytes {
    if ios == [] then []
    else
      var last := ios[|ios| - 1];
      Output(ios[..|ios| - 1]) + (if last.Stdout? then last.data else [])
  }

  function Size(io: Io): nat { if io.Stdout? || io.Stderr? then |io.data| else 0 }

  function Total(ios: seq<Io>): nat {
    if ios == [] then 0 else Total(ios[..|ios| - 1]) + Size(ios[|ios| - 1])
  }

  lemma OutputSnoc(ios: seq<Io>, io: Io)
    ensures Output(ios + [io]) == Output(ios) + (if io.Stdout? then io.data else [])
        && Total(ios + [io]) == Total(ios) + Size(io)
  {
    assert (ios + [io])[..|ios|] == ios;
  }

  // A read of at least one byte and at most as many as one call asks for, or a write that does not fail.
  predicate Plain(io: Io) {
    !io.BrokenPipe? && (io.Stdout? || io.Stderr? ==> 1 <= |io.data| <= READ_LIMIT)
  }

  predicate Ordinary(ios: seq<Io>) { forall i | 0 <= i < |ios| :: Plain(ios[i]) }

  // The state between reads: nothing complete is left over.
  predicate Rested(c: Conn, limit: nat) {
    c.fault.None? && Index(c.incoming) == |c.incoming| < limit
  }

  // The connection after one read of all of it.
  function Whole(c: Conn, stream: Bytes, limit: nat, decode: Decoder): Conn {
    Drain(c.(incoming := c.incoming + stream), limit, decode)
  }

  // The same to an observer: after a failure the unread buffer no longer matters.
  predicate Alike(a: Conn, b: Conn) {
    a.delivered == b.delivered && a.session == b.session && a.fault == b.fault
        && (a.fault.None? ==> a.incoming == b.incoming)
  }

  // ---- one step of a drain ----------------------------------------------------------------------------------

  lemma IndexJoin(a: Bytes, b: Bytes)
    ensures Index(a) < |a| ==> Index(a + b) == Index(a)
    ensures Index(a) == |a| ==> Index(a + b) >= |a|
  {
    var m, n := Index(a), Index(a + b);
    hide Index;
    assert forall k | 0 <= k < |a| :: (a + b)[k] == a[k];
    assert m < |a| ==> (a + b)[m] == NEWLINE;
  }

  // The connection after its first frame was handed on and taken.
  function After(c: Conn, t: Taken): Conn
    requires t.Taken? && Index(c.incoming) < |c.incoming|
  {
    var n := Index(c.incoming);
    c.(incoming := c.incoming[n + 1..], delivered := c.delivered + [c.incoming[..n]], session := t.session,
        outgoing := t.outgoing)
  }

  function First(c: Conn, limit: nat, decode: Decoder): Taken
    requires Index(c.incoming) < |c.incoming|
  {
    Take(c.session, c.outgoing, decode(c.incoming[..Index(c.incoming)]), limit)
  }

  lemma DrainStops(c: Conn, limit: nat, decode: Decoder)
    requires Index(c.incoming) >= limit || Index(c.incoming) == |c.incoming|
    ensures Drain(c, limit, decode) == if Index(c.incoming) >= limit then c.(fault := Some(FrameLimit)) else c
    ensures Index(c.incoming) == |c.incoming| ==> Lines(c.incoming) == [] && Tail(c.incoming) == c.incoming
    ensures Index(c.incoming) < |c.incoming| ==> Lines(c.incoming) != [] && |Lines(c.incoming)[0]| >= limit
  {}

  lemma DrainTakes(c: Conn, limit: nat, decode: Decoder)
    requires Index(c.incoming) < |c.incoming| && Index(c.incoming) < limit
    ensures Lines(c.incoming) == [c.incoming[..Index(c.incoming)]] + Lines(c.incoming[Index(c.incoming) + 1..])
    ensures Tail(c.incoming) == Tail(c.incoming[Index(c.incoming) + 1..])
    ensures var t := First(c, limit, decode);
            if t.Taken? then Drain(c, limit, decode) == Drain(After(c, t), limit, decode)
            else Drain(c, limit, decode) ==
                   c.(incoming := c.incoming[Index(c.incoming) + 1..],
                       delivered := c.delivered + [c.incoming[..Index(c.incoming)]],
                      session := t.session, fault := Some(t.fault))
  {
    hide Index, Take;
  }

  lemma {:induction false} DrainIgnoresTotal(c: Conn, total: nat, limit: nat, decode: Decoder)
    ensures Drain(c.(total := total), limit, decode) == Drain(c, limit, decode).(total := total)
    decreases |c.incoming|
  {
    hide Take;
    var n := Index(c.incoming);
    if n < |c.incoming| && n < limit && First(c, limit, decode).Taken? {
      DrainIgnoresTotal(After(c, First(c, limit, decode)), total, limit, decode);
    }
  }

  // ---- reads without writes ------------------------------------------------------------------------------------

  // The drain of more bytes, unless it has failed before.
  function Resume(c: Conn, more: Bytes, limit: nat, decode: Decoder): Conn {
    if c.fault.Some? then c else Whole(c, more, limit, decode)
  }

  lemma Shift(c: Conn, more: Bytes, limit: nat, decode: Decoder)
    requires Index(c.incoming) < |c.incoming| && Index(c.incoming) < limit
    ensures var d := c.(incoming := c.incoming + more);
            && Index(d.incoming) == Index(c.incoming) && d.incoming[..Index(c.incoming)] ==
                c.incoming[..Index(c.incoming)]
            && First(d, limit, decode) == First(c, limit, decode)
            && (First(c, limit, decode).Taken? ==>
                  After(d, First(c, limit, decode)) ==
                      After(c, First(c, limit, decode)).(incoming := After(c, First(c, limit, decode)).incoming + more))
  {
    IndexJoin(c.incoming, more);
    hide Index, Take;
    var n := Index(c.incoming);
    assert (c.incoming + more)[..n] == c.incoming[..n];
    assert (c.incoming + more)[n + 1..] == c.incoming[n + 1..] + more;
  }

  /** Handing on frames early and reading more, with no write in between, is reading once. */
  lemma {:induction false} DrainInParts(c: Conn, more: Bytes, limit: nat, decode: Decoder)
    requires c.fault.None?
    ensures var once, parts := Whole(c, more, limit, decode), Resume(Drain(c, limit, decode), more, limit, decode);
            Alike(once, parts) && once.outgoing == parts.outgoing
    decreases |c.incoming|
  {
    var n := Index(c.incoming);
    IndexJoin(c.incoming, more);
    hide Index, Take, Drain;
    var d := c.(incoming := c.incoming + more);
    if n >= limit || n == |c.incoming| {
      DrainStops(c, limit, decode);
      if n >= limit { DrainStops(d, limit, decode); }
    } else {
      Shift(c, more, limit, decode);
      DrainTakes(c, limit, decode);
      DrainTakes(d, limit, decode);
      if First(c, limit, decode).Taken? { DrainInParts(After(c, First(c, limit, decode)), more, limit, decode); }
    }
  }

  /** Without writes in between read boundaries do not matter: any reads within the output limit, with
      diagnostics interleaved, end like one read of the whole output, down to the reply buffer. */
  lemma {:induction false} BoundariesWithoutWrites(c: Conn, ios: seq<Io>, l: Limits, decode: Decoder)
    requires ValidLimits(l) && Rested(c, l.frame) && Ordinary(ios) && c.total + Total(ios) <= l.output
    requires forall i | 0 <= i < |ios| :: !ios[i].Stdin?
    ensures var whole, d := Whole(c, Output(ios), l.frame, decode), Turns(c, ios, l, decode);
            Alike(whole, d) && whole.outgoing == d.outgoing && (d.fault.None? ==> d.total == c.total + Total(ios))
  {
    if ios == [] {
      assert c.incoming + [] == c.incoming;
    } else {
      var front, last := ios[..|ios| - 1], ios[|ios| - 1];
      assert ios == front + [last];
      BoundariesWithoutWrites(c, front, l, decode);
      TurnsSnoc(c, front, last, l, decode);
      OutputSnoc(front, last);
      hide Drain, Turns, Output, Total, Index;
      PlainTurn(c, Output(front), Turns(c, front, l, decode), last, l, decode);
    }
  }

  lemma PlainTurn(c: Conn, stream: Bytes, d: Conn, io: Io, l: Limits, decode: Decoder)
    requires c.fault.None? && Alike(Whole(c, stream, l.frame, decode), d)
        && Whole(c, stream, l.frame, decode).outgoing == d.outgoing
    requires (io.Stdout? || io.Stderr?) && io.data != [] && (d.fault.None? ==> d.total + |io.data| <= l.output)
    ensures var whole, e := Whole(c, stream + (if io.Stdout? then io.data else []), l.frame, decode),
        Turn(d, io, l, decode);
            Alike(whole, e) && whole.outgoing == e.outgoing && (e.fault.None? ==> e.total == d.total + |io.data|)
  {
    hide Drain;
    if io.Stdout? {
      var first := Whole(c, stream, l.frame, decode);
      DrainInParts(c.(incoming := c.incoming + stream), io.data, l.frame, decode);
      assert c.incoming + (stream + io.data) == c.incoming + stream + io.data;
      if d.fault.None? {
        var joined := first.(incoming := first.incoming + io.data);
        DrainIgnoresTotal(joined, d.total + |io.data|, l.frame, decode);
        assert d.(total := d.total + |io.data|, incoming := d.incoming + io.data) ==
            joined.(total := d.total + |io.data|);
      }
    } else {
      assert stream + [] == stream;
    }
  }

  // ---- what is handed on
  // -------------------------------------------------------------------------------------------------

  // Session and reply buffer after these frames, unless one of them is refused.
  function Fold(s: Session, outgoing: nat, frames: seq<Bytes>, limit: nat, decode: Decoder): Option<(Session, nat)>
    decreases |frames|
  {
    if frames == [] then Some((s, outgoing))
    else
      match Take(s, outgoing, decode(frames[0]), limit)
      case Refused(_, _) => None
      case Taken(t, more) => Fold(t, more, frames[1..], limit, decode)
  }

  // The first n lines are short enough and all taken.
  predicate Passes(s: Session, outgoing: nat, lines: seq<Bytes>, n: nat, limit: nat, decode: Decoder) {
    n <= |lines| && (forall i | 0 <= i < n :: |lines[i]| < limit) && Fold(s, outgoing, lines[..n], limit, decode).Some?
  }

  lemma PassesFirst(s: Session, outgoing: nat, t: Taken, lines: seq<Bytes>, m: nat, limit: nat, decode: Decoder)
    requires lines != [] && |lines[0]| < limit && Take(s, outgoing, decode(lines[0]), limit) == t && t.Taken?
        && m < |lines|
    ensures Passes(s, outgoing, lines, m + 1, limit, decode) <==>
        Passes(t.session, t.outgoing, lines[1..], m, limit, decode)
    ensures Fold(s, outgoing, lines[..m + 1], limit, decode) == Fold(t.session, t.outgoing, lines[1..][..m], limit,
        decode)
  {
    hide Take;
    assert lines[..m + 1][1..] == lines[1..][..m];
    assert lines[..m + 1][0] == lines[0];
    assert forall i | 0 <= i < m :: lines[1..][i] == lines[i + 1];
    if Passes(t.session, t.outgoing, lines[1..], m, limit, decode) {
      forall i | 0 <= i < m + 1 ensures |lines[i]| < limit { if i > 0 { assert lines[i] == lines[1..][i - 1]; } }
    }
  }

  ghost predicate Success(c: Conn, d: Conn, lines: seq<Bytes>, tail: Bytes, limit: nat, decode: Decoder) {
    && (d.fault.None? <==> Passes(c.session, c.outgoing, lines, |lines|, limit, decode) && |tail| < limit)
    && (d.fault.None? ==> d.delivered == c.delivered + lines && d.incoming == tail &&
                          Fold(c.session, c.outgoing, lines, limit, decode) == Some((d.session, d.outgoing)))
  }

  // The first line is handed on and taken; the rest of the read decides.
  lemma SuccessFirst(c: Conn, next: Conn, d: Conn, lines: seq<Bytes>, tail: Bytes, limit: nat, decode: Decoder)
    requires lines != [] && |lines[0]| < limit && Take(c.session, c.outgoing, decode(lines[0]), limit) ==
        Taken(next.session, next.outgoing)
    requires next.delivered == c.delivered + [lines[0]] && Success(next, d, lines[1..], tail, limit, decode)
    ensures Success(c, d, lines, tail, limit, decode)
  {
    var n := |lines| - 1;
    assert lines[..n + 1] == lines && lines[1..][..n] == lines[1..];
    PassesFirst(c.session, c.outgoing, Taken(next.session, next.outgoing), lines, n, limit, decode);
    hide Passes, Fold, Take;
    assert c.delivered + [lines[0]] + lines[1..] == c.delivered + lines;
  }

  lemma NoneRefused(s: Session, outgoing: nat, lines: seq<Bytes>, limit: nat, decode: Decoder)
    requires lines != [] && Take(s, outgoing, decode(lines[0]), limit).Refused?
    ensures Fold(s, outgoing, lines, limit, decode).None? && lines[..|lines|] == lines
  {}

  /** A read fails exactly when a line or the tail reaches the limit or a frame is refused, by the
      session or for want of room for its reply. One that does not fail hands on exactly the lines of
      the stream and keeps its tail. */
  lemma {:induction false} DrainIsTheSplit(c: Conn, limit: nat, decode: Decoder)
    requires c.fault.None?
    ensures Success(c, Drain(c, limit, decode), Lines(c.incoming), Tail(c.incoming), limit, decode)
    decreases |c.incoming|
  {
    var lines, n := Lines(c.incoming), Index(c.incoming);
    hide Index, Drain, Lines, Tail, Take;
    if n >= limit || n == |c.incoming| {
      DrainStops(c, limit, decode);
      assert lines == [] ==> lines[..0] == [] && c.delivered + lines == c.delivered;
    } else {
      DrainTakes(c, limit, decode);
      assert lines[0] == c.incoming[..n] && lines[1..] == Lines(c.incoming[n + 1..]);
      var t := First(c, limit, decode);
      if t.Taken? {
        DrainIsTheSplit(After(c, t), limit, decode);
        SuccessFirst(c, After(c, t), Drain(c, limit, decode), lines, Tail(c.incoming), limit, decode);
      } else {
        NoneRefused(c.session, c.outgoing, lines, limit, decode);
      }
    }
  }

  // Why no more than n lines were handed on.
  predicate StopsAt(s: Session, outgoing: nat, lines: seq<Bytes>, n: nat, limit: nat, decode: Decoder) {
    || (Passes(s, outgoing, lines, n, limit, decode) && (n == |lines| || |lines[n]| >= limit))
    || (0 < n <= |lines| && Passes(s, outgoing, lines, n - 1, limit, decode) && |lines[n - 1]| < limit
        && Fold(s, outgoing, lines[..n], limit, decode).None?)
  }

  lemma StopsLater(s: Session, outgoing: nat, t: Taken, lines: seq<Bytes>, m: nat, limit: nat, decode: Decoder)
    requires lines != [] && |lines[0]| < limit && Take(s, outgoing, decode(lines[0]), limit) == t && t.Taken?
        && m < |lines|
    requires StopsAt(t.session, t.outgoing, lines[1..], m, limit, decode)
    ensures StopsAt(s, outgoing, lines, m + 1, limit, decode)
  {
    PassesFirst(s, outgoing, t, lines, m, limit, decode);
    if m > 0 { PassesFirst(s, outgoing, t, lines, m - 1, limit, decode); }
    hide Take, Fold;
  }

  lemma PrefixJoin(a: seq<Bytes>, lines: seq<Bytes>, m: nat)
    requires m < |lines|
    ensures a + [lines[0]] + lines[1..][..m] == a + lines[..m + 1]
  {}

  /** Whether it fails or not, a read has handed on a prefix of the lines, in order, and stopped at the
      end, at the first line that reaches the limit, or right after a refused frame. */
  lemma {:induction false} DrainHandsOnAPrefix(c: Conn, limit: nat, decode: Decoder) returns (n: nat)
    requires c.fault.None?
    ensures n <= |Lines(c.incoming)| && Drain(c, limit, decode).delivered == c.delivered + Lines(c.incoming)[..n]
    ensures StopsAt(c.session, c.outgoing, Lines(c.incoming), n, limit, decode)
    decreases |c.incoming|
  {
    var lines, i := Lines(c.incoming), Index(c.incoming);
    hide Index, Drain, Lines, Tail, Take;
    if i >= limit || i == |c.incoming| {
      DrainStops(c, limit, decode);
      n := 0;
      assert lines[..0] == [] && c.delivered + [] == c.delivered;
    } else {
      DrainTakes(c, limit, decode);
      assert lines[0] == c.incoming[..i] && lines[1..] == Lines(c.incoming[i + 1..]);
      var t := First(c, limit, decode);
      assert lines[..0] == [] && lines[..1] == [lines[0]] && lines[..1][0] == lines[0];
      if t.Refused? {
        n := 1;
      } else {
        var m := DrainHandsOnAPrefix(After(c, t), limit, decode);
        n := m + 1;
        PrefixJoin(c.delivered, lines, m);
        StopsLater(c.session, c.outgoing, t, lines, m, limit, decode);
        hide StopsAt;
      }
    }
  }

  lemma {:induction false} LinesJoin(a: Bytes, b: Bytes)
    ensures Lines(a + b) == Lines(a) + Lines(Tail(a) + b) && Tail(a + b) == Tail(Tail(a) + b)
    decreases |a|
  {
    var n := Index(a);
    IndexJoin(a, b);
    hide Index;
    if n < |a| {
      LinesJoin(a[n + 1..], b);
      assert (a + b)[n + 1..] == a[n + 1..] + b && (a + b)[..n] == a[..n];
    }
  }

  // Handed on so far beyond `base`: n of these lines, and while the connection works all of them.
  ghost predicate Handed(base: seq<Bytes>, d: Conn, lines: seq<Bytes>, tail: Bytes, n: nat) {
    n <= |lines| && d.delivered == base + lines[..n] && (d.fault.None? ==> n == |lines| && d.incoming == tail)
  }

  lemma HandedMore(base: seq<Bytes>, d: Conn, e: Conn, lines: seq<Bytes>, tail: Bytes, n: nat, more: seq<Bytes>,
      last: Bytes, k: nat)
    requires Handed(base, d, lines, tail, n) && d.fault.None? && Handed(d.delivered, e, more, last, k)
    ensures Handed(base, e, lines + more, last, n + k)
  {
    assert (lines + more)[..n + k] == lines[..n] + more[..k];
    assert base + lines[..n] + more[..k] == base + (lines[..n] + more[..k]);
  }

  lemma HandedStays(base: seq<Bytes>, d: Conn, e: Conn, lines: seq<Bytes>, tail: Bytes, n: nat, more: seq<Bytes>,
      last: Bytes)
    requires Handed(base, d, lines, tail, n) && e.delivered == d.delivered
        && (e.fault.Some? || (d.fault.None? && more == [] && e.incoming == last))
    ensures Handed(base, e, lines + more, last, n)
  {
    assert (lines + more)[..n] == lines[..n];
  }

  lemma DrainHandsOn(d: Conn, limit: nat, decode: Decoder) returns (k: nat)
    requires d.fault.None?
    ensures Handed(d.delivered, Drain(d, limit, decode), Lines(d.incoming), Tail(d.incoming), k)
  {
    DrainIsTheSplit(d, limit, decode);
    k := DrainHandsOnAPrefix(d, limit, decode);
    hide Drain, Lines, Tail, Passes, Fold, StopsAt;
    if Drain(d, limit, decode).fault.None? { SamePrefix(d.delivered, Lines(d.incoming), k); }
  }

  lemma SamePrefix(a: seq<Bytes>, lines: seq<Bytes>, k: nat)
    requires k <= |lines| && a + lines[..k] == a + lines
    ensures k == |lines|
  {
    assert |a + lines[..k]| == |a| + k;
  }

  lemma ReadHandsOn(base: seq<Bytes>, d: Conn, stream: Bytes, n: nat, data: Bytes, l: Limits,
      decode: Decoder) returns (m: nat)
    requires Handed(base, d, Lines(stream), Tail(stream), n) && d.fault.None? && data != []
        && d.total + |data| <= l.output
    ensures Handed(base, Turn(d, Stdout(data), l, decode), Lines(stream + data), Tail(stream + data), m)
  {
    hide Drain, Lines, Tail, Turn;
    ReadTurn(d, data, l, decode);
    var next := d.(total := d.total + |data|, incoming := d.incoming + data);
    assert next.incoming == Tail(stream) + data && next.delivered == d.delivered;
    hide Handed;
    var k := DrainHandsOn(next, l.frame, decode);
    m := n + k;
    LinesJoin(stream, data);
    HandedMore(base, d, Turn(d, Stdout(data), l, decode), Lines(stream), Tail(stream), n, Lines(Tail(stream) + data),
        Tail(Tail(stream) + data), k);
  }

  // A turn that reads nothing new hands on nothing.
  lemma IdleTurn(d: Conn, io: Io, l: Limits, decode: Decoder)
    requires d.fault.Some? || !io.Stdout? || io.data == [] || d.total + |io.data| > l.output
    ensures var e := Turn(d, io, l, decode);
            e.delivered == d.delivered && (e.fault.Some? || (d.fault.None? && e.incoming == d.incoming && !io.Stdout?))
  {
    hide Drain;
  }

  lemma TurnHandsOn(base: seq<Bytes>, d: Conn, stream: Bytes, n: nat, io: Io, l: Limits,
      decode: Decoder) returns (m: nat)
    requires Handed(base, d, Lines(stream), Tail(stream), n) && NEWLINE !in Tail(stream)
    ensures var all := stream + (if io.Stdout? then io.data else []);
        Handed(base, Turn(d, io, l, decode), Lines(all), Tail(all), m)
  {
    hide Drain, Lines, Tail, Turn;
    var data := if io.Stdout? then io.data else [];
    if d.fault.None? && io.Stdout? && data != [] && d.total + |data| <= l.output {
      m := ReadHandsOn(base, d, stream, n, data, l, decode);
    } else {
      m := n;
      IdleTurn(d, io, l, decode);
      LinesJoin(stream, data);
      RestIsTail(Tail(stream));
      assert !io.Stdout? ==> Tail(stream) + data == Tail(stream);
      HandedStays(base, d, Turn(d, io, l, decode), Lines(stream), Tail(stream), n, Lines(Tail(stream) + data),
          Tail(Tail(stream) + data));
    }
  }

  lemma RestIsTail(s: Bytes)
    requires NEWLINE !in s
    ensures Lines(s) == [] && Tail(s) == s
  {
    assert forall k | 0 <= k < |s| :: s[k] in s;
  }

  /** In every case, whatever is read, written, limited or closed: the frames handed on are a prefix of
      the newline split of the output, and while the connection works they are all of it. */
  lemma {:induction false} PrefixInEveryCase(c: Conn, ios: seq<Io>, l: Limits, decode: Decoder) returns (n: nat)
    requires Rested(c, l.frame)
    ensures Handed(c.delivered, Turns(c, ios, l, decode), Lines(c.incoming + Output(ios)),
        Tail(c.incoming + Output(ios)), n)
  {
    if ios == [] {
      n := 0;
      DrainStops(c, l.frame, decode);
      assert c.incoming + [] == c.incoming && c.delivered + [] == c.delivered;
    } else {
      var front, last := ios[..|ios| - 1], ios[|ios| - 1];
      var data := if last.Stdout? then last.data else [];
      assert Output(ios) == Output(front) + data && c.incoming + (Output(front) + data) ==
          c.incoming + Output(front) + data;
      hide Handed, Turn, Output, Lines, Tail, Index;
      var k := PrefixInEveryCase(c, front, l, decode);
      LinesHoldNoNewline(c.incoming + Output(front), 0);
      n := TurnHandsOn(c.delivered, Turns(c, front, l, decode), c.incoming + Output(front), k, last, l, decode);
    }
  }

  // ---- bounds
  // -----------------------------------------------------------------------------------------------------------------

  lemma {:induction false} DrainIsBounded(c: Conn, limit: nat, decode: Decoder)
    requires c.fault.None? && c.outgoing <= limit
    ensures var d := Drain(c, limit, decode);
            d.total == c.total && d.outgoing <= limit && (d.fault.None? ==>
                |d.incoming| < limit && NEWLINE !in d.incoming)
    decreases |c.incoming|
  {
    var n := Index(c.incoming);
    if n < |c.incoming| && n < limit && First(c, limit, decode).Taken? {
      DrainIsBounded(After(c, First(c, limit, decode)), limit, decode);
    }
    hide Index, Receive;
  }

  /** Through any reads and writes the reply buffer stays within the frame limit; while the connection
      works the input buffer is below it, holds no newline, and the total is within the output limit. */
  lemma {:induction false} BuffersAreBounded(c: Conn, ios: seq<Io>, l: Limits, decode: Decoder)
    requires Rested(c, l.frame) && c.outgoing <= l.frame && c.total <= l.output
    ensures var d := Turns(c, ios, l, decode);
            d.outgoing <= l.frame && (d.fault.None? ==>
                |d.incoming| < l.frame && NEWLINE !in d.incoming && d.total <= l.output)
  {
    hide Drain;
    if ios == [] {
      assert forall k | 0 <= k < |c.incoming| :: c.incoming[k] != NEWLINE;
    } else {
      var front, last := ios[..|ios| - 1], ios[|ios| - 1];
      BuffersAreBounded(c, front, l, decode);
      var d := Turns(c, front, l, decode);
      if d.fault.None? && last.Stdout? && last.data != [] && d.total + |last.data| <= l.output {
        DrainIsBounded(d.(total := d.total + |last.data|, incoming := d.incoming + last.data), l.frame, decode);
      }
    }
  }
}
