/**
 Exactly when read boundaries matter. The answer to each request waits in a reply buffer that only
 writes between the reads can empty, so two ways of reading one stream can differ when room for
 replies decides where it stops, and only then.
 */
module FramingReplies {
  import opened Options
  import opened AgentSession
  import opened Framing

  // ---- exactly when boundaries do not matter ----------------------------------------------------------------------

  // Room for replies never decides where the stream stops: each frame that is refused for want of room
  // carries a request whose reply could not fit an empty buffer either.
  predicate Steady(s: Session, outgoing: nat, lines: seq<Bytes>, limit: nat, decode: Decoder)
    decreases |lines|
  {
    lines == [] || |lines[0]| >= limit ||
    match Take(s, outgoing, decode(lines[0]), limit)
    case Refused(_, fault) => fault.ReplyLimit? ==> ReplyOf(decode(lines[0])) > limit
    case Taken(t, more) => Steady(t, more, lines[1..], limit, decode)
  }

  lemma SteadySplit(s: Session, outgoing: nat, line: Bytes, rest: seq<Bytes>, limit: nat, decode: Decoder)
    requires |line| < limit
    ensures Steady(s, outgoing, [line] + rest, limit, decode) <==>
              var t := Take(s, outgoing, decode(line), limit);
              if t.Taken? then Steady(t.session, t.outgoing, rest, limit, decode)
                               else t.fault.ReplyLimit? ==> ReplyOf(decode(line)) > limit
  {
    assert ([line] + rest)[1..] == rest && ([line] + rest)[0] == line;
    hide Take;
  }

  // The first frame of a steady stream: taken with any fuller or emptier buffer, or refused with both.
  lemma SteadyFirst(c: Conn, less: nat, limit: nat, decode: Decoder)
    requires Index(c.incoming) < |c.incoming| && Index(c.incoming) < limit && less <= c.outgoing
    requires Steady(c.session, c.outgoing, Lines(c.incoming), limit, decode)
    ensures var t, u := First(c, limit, decode), First(c.(outgoing := less), limit, decode);
            && (t.Refused? ==> u == t)
            && (t.Taken? ==> u.Taken? && u.session == t.session && u.outgoing <= t.outgoing &&
                             Steady(t.session, t.outgoing, Lines(After(c, t).incoming), limit, decode))
  {
    DrainTakes(c, limit, decode);
    var n := Index(c.incoming);
    hide Index, Drain, Lines, Tail, Receive;
    SteadySplit(c.session, c.outgoing, c.incoming[..n], Lines(c.incoming[n + 1..]), limit, decode);
    hide Steady;
  }

  // A steady stream ends the same with an emptier reply buffer.
  lemma {:induction false} DrainWithLess(c: Conn, less: nat, limit: nat, decode: Decoder)
    requires c.fault.None? && less <= c.outgoing && Steady(c.session, c.outgoing, Lines(c.incoming), limit, decode)
    ensures var d, e := Drain(c, limit, decode), Drain(c.(outgoing := less), limit, decode);
            Alike(d, e) && (d.fault.None? ==> e.outgoing <= d.outgoing)
    decreases |c.incoming|
  {
    var n := Index(c.incoming);
    hide Index, Take, Drain, Steady, Lines;
    if n >= limit || n == |c.incoming| {
      DrainStops(c, limit, decode);
      DrainStops(c.(outgoing := less), limit, decode);
    } else {
      SteadyFirst(c, less, limit, decode);
      DrainTakes(c, limit, decode);
      DrainTakes(c.(outgoing := less), limit, decode);
      var t, u := First(c, limit, decode), First(c.(outgoing := less), limit, decode);
      if t.Taken? {
        DrainWithLess(After(c, t), u.outgoing, limit, decode);
        assert After(c.(outgoing := less), u) == After(c, t).(outgoing := u.outgoing);
      }
    }
  }

  // What is steady as a whole is steady up to any point and from there on.
  lemma {:induction false} SteadyContinues(c: Conn, more: Bytes, limit: nat, decode: Decoder)
    requires c.fault.None? && Steady(c.session, c.outgoing, Lines(c.incoming + more), limit, decode)
    ensures Steady(c.session, c.outgoing, Lines(c.incoming), limit, decode)
    ensures var d := Drain(c, limit, decode);
        d.fault.None? ==> Steady(d.session, d.outgoing, Lines(d.incoming + more), limit, decode)
    decreases |c.incoming|
  {
    var n := Index(c.incoming);
    var d := c.(incoming := c.incoming + more);
    hide Index, Take, Drain, Lines;
    if n >= limit || n == |c.incoming| {
      DrainStops(c, limit, decode);
      assert Lines(c.incoming) == [] || |Lines(c.incoming)[0]| >= limit;
    } else {
      Shift(c, more, limit, decode);
      DrainTakes(c, limit, decode);
      DrainTakes(d, limit, decode);
      var t := First(c, limit, decode);
      SteadyBack(c, limit, decode);
      SteadyBack(d, limit, decode);
      if t.Taken? { SteadyContinues(After(c, t), more, limit, decode); }
    }
  }

  lemma SteadyBack(c: Conn, limit: nat, decode: Decoder)
    requires Index(c.incoming) < |c.incoming| && Index(c.incoming) < limit
    ensures var t, m := First(c, limit, decode), decode(c.incoming[..Index(c.incoming)]);
            Steady(c.session, c.outgoing, Lines(c.incoming), limit, decode) <==>
              if t.Taken? then Steady(t.session, t.outgoing, Lines(After(c, t).incoming), limit, decode)
              else t.fault.ReplyLimit? ==> ReplyOf(m) > limit
  {
    DrainTakes(c, limit, decode);
    var n := Index(c.incoming);
    hide Index, Drain, Lines, Tail, Receive;
    SteadySplit(c.session, c.outgoing, c.incoming[..n], Lines(c.incoming[n + 1..]), limit, decode);
    hide Steady;
  }

  // ---- steady streams end alike -----------------------------------------------------------------------------------

  // A turn keeps a connection, with whatever was written, like the one that saw all in one read.
  lemma SteadyTurn(c: Conn, stream: Bytes, d: Conn, io: Io, l: Limits, decode: Decoder)
    requires c.fault.None? && Plain(io)
    requires d.fault.None? ==> d.total + Size(io) <= l.output
    requires Steady(c.session, c.outgoing, Lines(c.incoming + stream + (if io.Stdout? then io.data else [])), l.frame,
        decode)
    requires Alike(Whole(c, stream, l.frame, decode), d) && (d.fault.None? ==>
        d.outgoing <= Whole(c, stream, l.frame, decode).outgoing)
    ensures var whole, e := Whole(c, stream + (if io.Stdout? then io.data else []), l.frame, decode),
        Turn(d, io, l, decode);
            Alike(whole, e) && (e.fault.None? ==>
                d.fault.None? && e.outgoing <= whole.outgoing && e.total == d.total + Size(io))
  {
    hide Drain, Steady, Lines;
    if io.Stdout? {
      var first := Whole(c, stream, l.frame, decode);
      DrainInParts(c.(incoming := c.incoming + stream), io.data, l.frame, decode);
      assert c.incoming + (stream + io.data) == c.incoming + stream + io.data;
      if d.fault.None? {
        SteadyContinues(c.(incoming := c.incoming + stream), io.data, l.frame, decode);
        var joined := first.(incoming := first.incoming + io.data);
        DrainWithLess(joined, d.outgoing, l.frame, decode);
        DrainIgnoresTotal(joined.(outgoing := d.outgoing), d.total + |io.data|, l.frame, decode);
        assert d.(total := d.total + |io.data|, incoming := d.incoming + io.data) ==
            joined.(outgoing := d.outgoing, total := d.total + |io.data|);
      }
    } else {
      assert stream + [] == stream;
    }
  }

  lemma {:induction false} SteadyTurns(c: Conn, ios: seq<Io>, l: Limits, decode: Decoder)
    requires ValidLimits(l) && Rested(c, l.frame) && Ordinary(ios) && c.total + Total(ios) <= l.output
    requires Steady(c.session, c.outgoing, Lines(c.incoming + Output(ios)), l.frame, decode)
    ensures var whole, d := Whole(c, Output(ios), l.frame, decode), Turns(c, ios, l, decode);
            Alike(whole, d) && (d.fault.None? ==> d.outgoing <= whole.outgoing && d.total == c.total + Total(ios))
  {
    hide Drain, Steady, Lines, Turn;
    if ios == [] {
      assert c.incoming + [] == c.incoming;
      DrainStops(c, l.frame, decode);
    } else {
      var front, last := ios[..|ios| - 1], ios[|ios| - 1];
      var data := if last.Stdout? then last.data else [];
      assert ios == front + [last];
      hide Index;
      TurnsSnoc(c, front, last, l, decode);
      OutputSnoc(front, last);
      hide Turns, Output, Total;
      assert c.incoming + (Output(front) + data) == c.incoming + Output(front) + data;
      SteadyContinues(c.(incoming := c.incoming + Output(front)), data, l.frame, decode);
      SteadyTurns(c, front, l, decode);
      SteadyTurn(c, Output(front), Turns(c, front, l, decode), last, l, decode);
    }
  }

  // ---- unsteady streams do not
  // -----------------------------------------------------------------------------------------

  // The reply to the first frame does not fit the buffer as it is, but fits an empty one.
  predicate Overflows(c: Conn, limit: nat, decode: Decoder) {
    && Index(c.incoming) < |c.incoming| && Index(c.incoming) < limit
    && var t := First(c, limit, decode);
       t.Refused? && t.fault.ReplyLimit? && ReplyOf(decode(c.incoming[..Index(c.incoming)])) <= limit
  }

  // The stream up to the frame where room runs out, and from there on.
  lemma {:induction false} FirstOverflow(c: Conn, limit: nat, decode: Decoder) returns (a: Bytes, b: Bytes)
    requires c.fault.None? && limit > 0 && !Steady(c.session, c.outgoing, Lines(c.incoming), limit, decode)
    ensures c.incoming == a + b && (a != [] ==> a[|a| - 1] == NEWLINE)
    ensures RunsOut(c, a, b, limit, decode)
    decreases |c.incoming|
  {
    var n := Index(c.incoming);
    UnsteadyHasALine(c, limit, decode);
    SteadyBack(c, limit, decode);
    var t := First(c, limit, decode);
    if t.Taken? {
      assert After(c, t).incoming == c.incoming[n + 1..] && c.incoming[n] == NEWLINE;
      hide Index, Take, Steady, Lines, Drain, Overflows, First, After;
      var rest;
      rest, b := FirstOverflow(After(c, t), limit, decode);
      a := c.incoming[..n + 1] + rest;
      PrefixTakes(c, rest, limit, decode);
      CutJoin(c.incoming, n, rest, b);
    } else {
      hide Index, Take, Steady, Lines, Drain;
      a, b := [], c.incoming;
      OverflowsAtOnce(c, limit, decode);
      assert [] + b == b;
    }
  }

  ghost predicate RunsOut(c: Conn, a: Bytes, b: Bytes, limit: nat, decode: Decoder) {
    var d := Drain(c.(incoming := a), limit, decode);
    d.fault.None? && d.incoming == [] && Overflows(d.(incoming := b), limit, decode)
  }

  lemma OverflowsAtOnce(c: Conn, limit: nat, decode: Decoder)
    requires c.fault.None? && limit > 0 && Overflows(c, limit, decode)
    ensures RunsOut(c, [], c.incoming, limit, decode)
  {
    NothingToDrain(c, limit, decode);
    hide Drain, Overflows;
    assert c.(incoming := []).(incoming := c.incoming) == c;
  }

  lemma CutJoin(s: Bytes, n: nat, rest: Bytes, b: Bytes)
    requires n < |s| && s[n] == NEWLINE && s[n + 1..] == rest + b && (rest != [] ==> rest[|rest| - 1] == NEWLINE)
    ensures s == (s[..n + 1] + rest) + b && (s[..n + 1] + rest)[|s[..n + 1] + rest| - 1] == NEWLINE
  {
    assert s == s[..n + 1] + s[n + 1..];
  }

  lemma NothingToDrain(c: Conn, limit: nat, decode: Decoder)
    requires limit > 0
    ensures Drain(c.(incoming := []), limit, decode) == c.(incoming := [])
  {}

  lemma UnsteadyHasALine(c: Conn, limit: nat, decode: Decoder)
    requires !Steady(c.session, c.outgoing, Lines(c.incoming), limit, decode)
    ensures Index(c.incoming) < |c.incoming| && Index(c.incoming) < limit
  {
    var n := Index(c.incoming);
    hide Take, Index, Drain;
    if n >= limit || n == |c.incoming| { DrainStops(c, limit, decode); }
  }

  // The first frame is the same in a stream cut off later.
  lemma PrefixTakes(c: Conn, rest: Bytes, limit: nat, decode: Decoder)
    requires Index(c.incoming) < |c.incoming| && Index(c.incoming) < limit && First(c, limit, decode).Taken?
    ensures Drain(c.(incoming := c.incoming[..Index(c.incoming) + 1] + rest), limit, decode) ==
            Drain(After(c, First(c, limit, decode)).(incoming := rest), limit, decode)
  {
    var n := Index(c.incoming);
    var a := c.incoming[..n + 1];
    var d := c.(incoming := a + rest);
    assert a[n] == NEWLINE && forall k | 0 <= k < n :: a[k] != NEWLINE;
    IndexOf(a, n);
    IndexJoin(a, rest);
    hide Index, Take, Drain, Lines, Tail;
    CutAgain(c.incoming, n, rest);
    DrainTakes(d, limit, decode);
  }

  lemma CutAgain(s: Bytes, n: nat, rest: Bytes)
    requires n < |s|
    ensures (s[..n + 1] + rest)[..n] == s[..n] && (s[..n + 1] + rest)[n + 1..] == rest
  {}

  lemma IndexOf(s: Bytes, n: nat)
    requires n < |s| && s[n] == NEWLINE && forall k | 0 <= k < n :: s[k] != NEWLINE
    ensures Index(s) == n
  {
    hide Index;
  }

  // Writes that empty the reply buffer.
  function Flush(k: nat): seq<Io> { if k == 0 then [] else Flush(k - 1) + [Stdin(WRITE_LIMIT)] }

  lemma {:induction false} FlushWrites(c: Conn, k: nat, l: Limits, decode: Decoder)
    requires c.fault.None?
    ensures Turns(c, Flush(k), l, decode) == c.(outgoing := if c.outgoing <= k * WRITE_LIMIT
        then 0 else c.outgoing - k * WRITE_LIMIT)
  {
    hide Turn;
    if k > 0 {
      FlushWrites(c, k - 1, l, decode);
      TurnsSnoc(c, Flush(k - 1), Stdin(WRITE_LIMIT), l, decode);
      WriteTurn(Turns(c, Flush(k - 1), l, decode), WRITE_LIMIT, l, decode);
    }
  }

  lemma OrdinarySnoc(ios: seq<Io>, io: Io)
    requires Ordinary(ios) && Plain(io)
    ensures Ordinary(ios + [io])
  {}

  lemma {:induction false} FlushIsSilent(k: nat)
    ensures Output(Flush(k)) == [] && Total(Flush(k)) == 0 && Ordinary(Flush(k))
  {
    if k > 0 {
      FlushIsSilent(k - 1);
      OutputSnoc(Flush(k - 1), Stdin(WRITE_LIMIT));
      OrdinarySnoc(Flush(k - 1), Stdin(WRITE_LIMIT));
      assert Flush(k) == Flush(k - 1) + [Stdin(WRITE_LIMIT)];
    }
    hide Output, Total, Ordinary;
  }

  // A frame refused for want of room was handed on first.
  lemma {:induction false} RefusalDelivers(c: Conn, limit: nat, decode: Decoder)
    requires c.fault.None?
    ensures var d := Drain(c, limit, decode);
        |d.delivered| >= |c.delivered| && (d.fault == Some(ReplyLimit) ==> |d.delivered| > |c.delivered|)
    decreases |c.incoming|
  {
    var n := Index(c.incoming);
    hide Index, Take;
    if n < |c.incoming| && n < limit && First(c, limit, decode).Taken? {
      RefusalDelivers(After(c, First(c, limit, decode)), limit, decode);
    }
  }

  // With an empty reply buffer the frame at the overflow is taken, so the two ends differ.
  lemma OverflowTells(d: Conn, e: Conn, limit: nat, decode: Decoder)
    requires d.fault.None? && e.fault.None? && Overflows(d, limit, decode)
    requires e.incoming == d.incoming && e.session == d.session && e.delivered == d.delivered && e.outgoing == 0
    ensures !Alike(Drain(d, limit, decode), Drain(e, limit, decode))
  {
    hide Index, Drain, Receive;
    DrainTakes(d, limit, decode);
    DrainTakes(e, limit, decode);
    var t := First(e, limit, decode);
    assert t.Taken?;
    RefusalDelivers(After(e, t), limit, decode);
  }

  // The output in reads as large as one call allows.
  function Chunks(data: Bytes): seq<Io>
    decreases |data|
  {
    if data == [] then []
    else
      var n := Min(|data|, READ_LIMIT);
      Chunks(data[..|data| - n]) + [Stdout(data[|data| - n..])]
  }

  lemma {:induction false} ChunksRead(data: Bytes)
    ensures var ios := Chunks(data);
            && Ordinary(ios) && Output(ios) == data && Total(ios) == |data|
            && forall i | 0 <= i < |ios| :: !ios[i].Stdin?
    decreases |data|
  {
    assert Output([]) == [] && Total([]) == 0;
    if data != [] {
      var n := Min(|data|, READ_LIMIT);
      var front, last := data[..|data| - n], data[|data| - n..];
      assert data == front + last;
      ChunksRead(front);
      OutputSnoc(Chunks(front), Stdout(last));
      OrdinarySnoc(Chunks(front), Stdout(last));
    }
    hide Output, Total, Ordinary;
  }

  // Some of the output, then writes until the reply buffer is empty, then the rest.
  function InTwoParts(c: Conn, first: Bytes, rest: Bytes, l: Limits, decode: Decoder): seq<Io> {
    Chunks(first) + Flush(Turns(c, Chunks(first), l, decode).outgoing) + Chunks(rest)
  }

  lemma OrdinaryJoin(a: seq<Io>, b: seq<Io>)
    requires Ordinary(a) && Ordinary(b)
    ensures Ordinary(a + b)
  {}

  lemma TwoPartsDeliver(c: Conn, first: Bytes, rest: Bytes, l: Limits, decode: Decoder)
    ensures var ios := InTwoParts(c, first, rest, l, decode);
            Ordinary(ios) && Output(ios) == first + rest && Total(ios) == |first| + |rest|
  {
    hide Turns, Flush, Output, Total, Chunks, Ordinary;
    var q := Turns(c, Chunks(first), l, decode).outgoing;
    ChunksRead(first);
    ChunksRead(rest);
    FlushIsSilent(q);
    OutputJoin(Chunks(first), Flush(q));
    OutputJoin(Chunks(first) + Flush(q), Chunks(rest));
    OrdinaryJoin(Chunks(first), Flush(q));
    OrdinaryJoin(Chunks(first) + Flush(q), Chunks(rest));
    assert first + [] == first;
  }

  lemma {:induction false} OutputJoin(a: seq<Io>, b: seq<Io>)
    ensures Output(a + b) == Output(a) + Output(b) && Total(a + b) == Total(a) + Total(b)
    decreases |b|
  {
    if b == [] {
      assert a + b == a;
      assert Output(b) == [] && Total(b) == 0;
      hide *;
    } else {
      hide Output, Total, Size;
      var front, last := b[..|b| - 1], b[|b| - 1];
      var more := if last.Stdout? then last.data else [];
      OutputJoin(a, front);
      JoinLast(a, b);
      OutputSnoc(a + front, last);
      OutputSnoc(front, last);
      Regroup(Output(a), Output(front), more);
    }
  }

  lemma Regroup(a: Bytes, b: Bytes, c: Bytes)
    ensures (a + b) + c == a + (b + c)
  {}

  lemma JoinLast(a: seq<Io>, b: seq<Io>)
    requires b != []
    ensures b == b[..|b| - 1] + [b[|b| - 1]] && a + b == (a + b[..|b| - 1]) + [b[|b| - 1]]
  {}

  lemma {:induction false} TurnsJoin(c: Conn, a: seq<Io>, b: seq<Io>, l: Limits, decode: Decoder)
    ensures Turns(c, a + b, l, decode) == Turns(Turns(c, a, l, decode), b, l, decode)
    decreases |b|
  {
    hide Turn;
    if b == [] {
      assert a + b == a;
    } else {
      var front, last := b[..|b| - 1], b[|b| - 1];
      TurnsJoin(c, a, front, l, decode);
      assert a + b == (a + front) + [last];
      TurnsSnoc(c, a + front, last, l, decode);
    }
  }

  // One part, read in chunks, ends like one read of it.
  lemma PartEnds(c: Conn, data: Bytes, l: Limits, decode: Decoder)
    requires ValidLimits(l) && Rested(c, l.frame) && c.total + |data| <= l.output
    ensures var whole, d := Whole(c, data, l.frame, decode), Turns(c, Chunks(data), l, decode);
            Alike(whole, d) && whole.outgoing == d.outgoing && (d.fault.None? ==> d.total == c.total + |data|)
  {
    hide Turns, Chunks, Drain, Output, Total, Ordinary, Index;
    ChunksRead(data);
    BoundariesWithoutWrites(c, Chunks(data), l, decode);
  }

  lemma FlushEmpties(e: Conn, l: Limits, decode: Decoder)
    requires e.fault.None?
    ensures Turns(e, Flush(e.outgoing), l, decode) == e.(outgoing := 0)
  {
    hide Turns, Flush, Turn;
    FlushWrites(e, e.outgoing, l, decode);
    assert e.outgoing <= e.outgoing * WRITE_LIMIT;
  }

  // The end of two parts with an emptied reply buffer in between.
  lemma TwoPartsEnd(c: Conn, first: Bytes, rest: Bytes, l: Limits, decode: Decoder)
    requires ValidLimits(l) && Rested(c, l.frame) && c.total + |first| + |rest| <= l.output
    requires Rested(Whole(c, first, l.frame, decode), l.frame)
    ensures var d := Whole(c, first, l.frame, decode);
            Alike(Whole(d.(outgoing := 0), rest, l.frame, decode),
                Turns(c, InTwoParts(c, first, rest, l, decode), l, decode))
  {
    hide Turns, Chunks, Flush, Drain, Index;
    var d, e := Whole(c, first, l.frame, decode), Turns(c, Chunks(first), l, decode);
    PartEnds(c, first, l, decode);
    FlushEmpties(e, l, decode);
    PartEnds(e.(outgoing := 0), rest, l, decode);
    TurnsJoin(c, Chunks(first), Flush(e.outgoing), l, decode);
    TurnsJoin(c, Chunks(first) + Flush(e.outgoing), Chunks(rest), l, decode);
    var joined := d.(outgoing := 0, incoming := d.incoming + rest);
    DrainIgnoresTotal(joined, e.total, l.frame, decode);
    assert e.(outgoing := 0, incoming := e.incoming + rest) == joined.(total := e.total);
  }

  /** A stream that is not steady: some reads and writes of it do not end like one read. */
  lemma UnsteadyTurns(c: Conn, stream: Bytes, l: Limits, decode: Decoder) returns (ios: seq<Io>)
    requires ValidLimits(l) && Rested(c, l.frame) && c.total + |stream| <= l.output
    requires !Steady(c.session, c.outgoing, Lines(c.incoming + stream), l.frame, decode)
    ensures Ordinary(ios) && Output(ios) == stream && Total(ios) == |stream|
    ensures !Alike(Whole(c, stream, l.frame, decode), Turns(c, ios, l, decode))
  {
    hide Drain, Steady, Lines, Overflows, Index, Ordinary, Output, Total, InTwoParts, Turns, Alike, Whole;
    var a, b := FirstOverflow(c.(incoming := c.incoming + stream), l.frame, decode);
    var d := Drain(c.(incoming := a), l.frame, decode);
    assert c.(incoming := c.incoming + stream).(incoming := a) == c.(incoming := a);
    OverflowHasAFrame(d.(incoming := b), l.frame, decode);
    var first := Cut(c, a, b, stream);
    RestedAfter(c, first, a, l.frame, decode);
    var rest := stream[|first|..];
    assert stream == first + rest;
    TwoPartsDeliver(c, first, rest, l, decode);
    TwoPartsEnd(c, first, rest, l, decode);
    ios := InTwoParts(c, first, rest, l, decode);
    var e := Whole(c, first, l.frame, decode);
    PartTells(d.(incoming := b), e.(outgoing := 0), rest, l.frame, decode);
    WholeInParts(c, a, b, stream, l.frame, decode);
    NotAlike(Whole(c, stream, l.frame, decode), Drain(d.(incoming := b), l.frame, decode),
             Whole(e.(outgoing := 0), rest, l.frame, decode), Turns(c, ios, l, decode));
  }

  lemma PartTells(d: Conn, e: Conn, rest: Bytes, limit: nat, decode: Decoder)
    requires d.fault.None? && e.fault.None? && Overflows(d, limit, decode)
    requires e.incoming + rest == d.incoming && e.session == d.session && e.delivered == d.delivered && e.outgoing == 0
    ensures !Alike(Drain(d, limit, decode), Whole(e, rest, limit, decode))
  {
    hide Drain, Overflows, Alike;
    OverflowTells(d, e.(incoming := e.incoming + rest), limit, decode);
  }

  // The connection after the first part: at the frame where room runs out, or as it was.
  lemma RestedAfter(c: Conn, first: Bytes, a: Bytes, limit: nat, decode: Decoder)
    requires Rested(c, limit) && (if first == [] then a == [] else c.incoming + first == a)
    requires var d := Drain(c.(incoming := a), limit, decode); d.fault.None? && d.incoming == []
    ensures var e, d := Whole(c, first, limit, decode), Drain(c.(incoming := a), limit, decode);
            && Rested(e, limit) && e.session == d.session && e.delivered == d.delivered
            && e.incoming == if first == [] then c.incoming else []
  {
    if first == [] {
      assert c.incoming + [] == c.incoming;
      DrainStops(c, limit, decode);
      NothingToDrain(c, limit, decode);
    }
    hide Drain;
  }

  lemma WholeInParts(c: Conn, a: Bytes, b: Bytes, stream: Bytes, limit: nat, decode: Decoder)
    requires c.fault.None? && c.incoming + stream == a + b
    requires var d := Drain(c.(incoming := a), limit, decode); d.fault.None? && d.incoming == []
    ensures Alike(Whole(c, stream, limit, decode),
        Drain(Drain(c.(incoming := a), limit, decode).(incoming := b), limit, decode))
  {
    DrainInParts(c.(incoming := a), b, limit, decode);
    assert [] + b == b;
    hide Drain;
  }

  lemma NotAlike(a: Conn, b: Conn, c: Conn, d: Conn)
    requires Alike(a, b) && !Alike(b, c) && Alike(c, d)
    ensures !Alike(a, d)
  {}

  lemma OverflowHasAFrame(c: Conn, limit: nat, decode: Decoder)
    requires Overflows(c, limit, decode)
    ensures NEWLINE in c.incoming
  {
    assert c.incoming[Index(c.incoming)] == NEWLINE;
    hide Take;
  }

  // The first read: nothing when room runs out at once, otherwise up to the frame where it does.
  lemma Cut(c: Conn, a: Bytes, b: Bytes, stream: Bytes) returns (first: Bytes)
    requires c.incoming + stream == a + b && (a != [] ==> a[|a| - 1] == NEWLINE) && Index(c.incoming) == |c.incoming|
        && NEWLINE in b
    ensures |first| < |stream| && stream[..|first|] == first
    ensures if first == [] then a == [] && c.incoming + stream[|first|..] == b
                                else c.incoming + first == a && stream[|first|..] == b
  {
    if a == [] {
      first := [];
      assert stream[0..] == stream && [] + b == b;
      assert stream == [] ==> c.incoming + stream == c.incoming;
    } else {
      LongerThanLeft(c, a, b, stream);
      first := a[|c.incoming|..];
      assert c.incoming + first == a;
    }
  }

  // A part that ends in a newline reaches beyond what was left over.
  lemma LongerThanLeft(c: Conn, a: Bytes, b: Bytes, stream: Bytes)
    requires c.incoming + stream == a + b && a != [] && a[|a| - 1] == NEWLINE && Index(c.incoming) == |c.incoming|
    ensures |a| > |c.incoming| && a[..|c.incoming|] == c.incoming && stream == a[|c.incoming|..] + b
  {
    var all, n := c.incoming + stream, |c.incoming|;
    assert forall k | 0 <= k < n :: all[k] == c.incoming[k] != NEWLINE;
    hide Index;
    assert all[|a| - 1] == (a + b)[|a| - 1] == NEWLINE;
    assert a[..n] == all[..n] == c.incoming;
    assert all[n..] == stream && (a + b)[n..] == a[n..] + b;
  }

  // Reads and writes that deliver this output within the limit.
  predicate Delivers(ios: seq<Io>, c: Conn, stream: Bytes, l: Limits) {
    Ordinary(ios) && Output(ios) == stream && c.total + Total(ios) <= l.output
  }

  /** Exactly when read boundaries do not matter: for any connection between reads and any output within
      the limit, all ways of reading it, with diagnostics and writes anywhere, end alike if and only if
      room for replies never decides where the stream stops. */
  lemma BoundariesMatterIff(c: Conn, stream: Bytes, l: Limits, decode: Decoder)
    requires ValidLimits(l) && Rested(c, l.frame) && c.total + |stream| <= l.output
    ensures (forall ios | Delivers(ios, c, stream, l) ::
        Alike(Whole(c, stream, l.frame, decode), Turns(c, ios, l, decode))) <==>
              Steady(c.session, c.outgoing, Lines(c.incoming + stream), l.frame, decode)
  {
    hide Drain, Turns, Steady, Lines, Index, Ordinary;
    if Steady(c.session, c.outgoing, Lines(c.incoming + stream), l.frame, decode) {
      forall ios | Delivers(ios, c, stream, l) ensures Alike(Whole(c, stream, l.frame, decode),
          Turns(c, ios, l, decode)) {
        SteadyTurns(c, ios, l, decode);
      }
    } else {
      var ios := UnsteadyTurns(c, stream, l, decode);
      assert Delivers(ios, c, stream, l);
    }
  }

  // ---- a run in which boundaries matter
  // ------------------------------------------------------------------------------

  const SMALL := Limits(512, 4096)
  const FRESH := Conn([], 0, 0, [], Init(), None)

  // The bytes of {"jsonrpc":"2.0","id":1,"method":"x"}.
  const ASK: Bytes := [
    123, 34, 106, 115, 111, 110, 114, 112, 99, 34, 58, 34, 50, 46, 48, 34, 44, 34, 105, 100, 34, 58, 49, 44,
    34, 109, 101, 116, 104, 111, 100, 34, 58, 34, 120, 34, 125]

  // That frame is a request of a method the client does not have, answered with 87 bytes.
  function Asking(frame: Bytes): Message { if frame == ASK then Request(false, None, 87) else Invalid }

  function Copies(k: nat): Bytes { if k == 0 then [] else ASK + [NEWLINE] + Copies(k - 1) }

  lemma FirstCopy(k: nat)
    requires k > 0
    ensures |ASK| == 37 && Index(Copies(k)) == 37 < |Copies(k)| && |Copies(k)| == 38 + |Copies(k - 1)|
    ensures Copies(k)[..37] == ASK && Copies(k)[38..] == Copies(k - 1)
  {
    var s := Copies(k);
    assert s == ASK + ([NEWLINE] + Copies(k - 1));
    assert forall i | 0 <= i < 37 :: ASK[i] != NEWLINE;
    assert s[37] == NEWLINE;
    IndexOf(s, 37);
  }

  // Each copy is answered while there is room.
  lemma {:induction false} CopiesDrain(c: Conn, k: nat)
    requires c.fault.None? && c.session == Init() && c.incoming == Copies(k) && c.outgoing <= 512
    ensures var d := Drain(c, 512, Asking);
            if c.outgoing + 87 * k <= 512
            then d.fault.None? && d.incoming == [] && d.session == Init() && d.outgoing == c.outgoing + 87 * k
            else d.fault == Some(ReplyLimit)
    decreases k
  {
    hide Drain, Index, Lines, Tail, ASK;
    if k == 0 {
      NothingToDrain(c, 512, Asking);
    } else {
      FirstCopy(k);
      DrainTakes(c, 512, Asking);
      var t := First(c, 512, Asking);
      if t.Taken? {
        assert After(c, t).incoming == Copies(k - 1);
        hide Copies;
        CopiesDrain(After(c, t), k - 1);
      }
    }
  }

  lemma {:induction false} CopiesLength(k: nat)
    ensures |Copies(k)| == 38 * k
  {
    if k > 0 {
      FirstCopy(k);
      CopiesLength(k - 1);
    }
  }

  lemma {:induction false} CopiesJoin(j: nat, k: nat)
    ensures Copies(j) + Copies(k) == Copies(j + k)
  {
    hide ASK;
    if j > 0 {
      CopiesJoin(j - 1, k);
      var line := ASK + [NEWLINE];
      assert line + Copies(j - 1) + Copies(k) == line + (Copies(j - 1) + Copies(k));
    } else {
      assert [] + Copies(k) == Copies(k);
    }
  }

  lemma OneReadOverflows()
    ensures Turns(FRESH, [Stdout(Copies(6))], SMALL, Asking).fault == Some(ReplyLimit)
  {
    hide Turn, Turns, Drain, Copies;
    CopiesLength(6);
    OneTurn(FRESH, Stdout(Copies(6)), SMALL, Asking);
    ReadTurn(FRESH, Copies(6), SMALL, Asking);
    assert [] + Copies(6) == Copies(6);
    CopiesDrain(FRESH.(total := |Copies(6)|, incoming := Copies(6)), 6);
  }

  // Three requests into an empty reply buffer.
  lemma ThreeFit(c: Conn)
    requires c.fault.None? && c.session == Init() && c.incoming == [] && c.outgoing == 0 && c.total <= 114
    ensures var d := Turn(c, Stdout(Copies(3)), SMALL, Asking);
            d.fault.None? && d.session == Init() && d.incoming == [] && d.outgoing == 261 && d.total == c.total + 114
  {
    hide Turn, Drain, Copies;
    CopiesLength(3);
    ReadTurn(c, Copies(3), SMALL, Asking);
    assert [] + Copies(3) == Copies(3);
    var e := c.(total := c.total + 114, incoming := Copies(3));
    CopiesDrain(e, 3);
    DrainIgnoresTotal(e, e.total, 512, Asking);
  }

  /** Six short requests need 522 bytes of replies. In one read they exceed the limit of 512; read in two
      halves, with the replies of the first written in between, they do not. */
  lemma BoundariesCanMatter()
    ensures Copies(6) == Copies(3) + Copies(3)
    ensures Ordinary([Stdout(Copies(6))]) && Ordinary([Stdout(Copies(3))] + [Stdin(261)] + [Stdout(Copies(3))])
    ensures Turns(FRESH, [Stdout(Copies(6))], SMALL, Asking).fault == Some(ReplyLimit)
    ensures Turns(FRESH, [Stdout(Copies(3))] + [Stdin(261)] + [Stdout(Copies(3))], SMALL, Asking).fault.None?
  {
    hide Turn, Turns, Copies;
    CopiesJoin(3, 3);
    CopiesLength(3);
    CopiesLength(6);
    OneReadOverflows();
    OneTurn(FRESH, Stdout(Copies(3)), SMALL, Asking);
    TurnsSnoc(FRESH, [Stdout(Copies(3))], Stdin(261), SMALL, Asking);
    TurnsSnoc(FRESH, [Stdout(Copies(3))] + [Stdin(261)], Stdout(Copies(3)), SMALL, Asking);
    ThreeFit(FRESH);
    var half := Turns(FRESH, [Stdout(Copies(3))], SMALL, Asking);
    WriteTurn(half, 261, SMALL, Asking);
    ThreeFit(half.(outgoing := 0));
  }

  lemma OneTurn(c: Conn, io: Io, l: Limits, decode: Decoder)
    ensures Turns(c, [io], l, decode) == Turn(c, io, l, decode)
  {
    hide Turn;
    assert [] + [io] == [io];
    TurnsSnoc(c, [], io, l, decode);
  }

  /** For every way of reading and writing that ends like one read: it fails exactly when the split of the
      whole output says so, has handed on a prefix of that split, and all of it when it did not fail. */
  lemma DeliveryIsTheSplit(c: Conn, ios: seq<Io>, l: Limits, decode: Decoder) returns (n: nat)
    requires ValidLimits(l) && Rested(c, l.frame) && Ordinary(ios) && c.total + Total(ios) <= l.output
    requires (forall i | 0 <= i < |ios| :: !ios[i].Stdin?) || Steady(c.session, c.outgoing,
        Lines(c.incoming + Output(ios)), l.frame, decode)
    ensures var d := Turns(c, ios, l, decode);
        var lines, tail := Lines(c.incoming + Output(ios)), Tail(c.incoming + Output(ios));
            && (d.fault.None? <==> Passes(c.session, c.outgoing, lines, |lines|, l.frame, decode) && |tail| < l.frame)
            && n <= |lines| && d.delivered == c.delivered + lines[..n]
                && StopsAt(c.session, c.outgoing, lines, n, l.frame, decode)
            && (d.fault.None? ==> d.delivered == c.delivered + lines && d.incoming == tail)
  {
    if forall i | 0 <= i < |ios| :: !ios[i].Stdin? { BoundariesWithoutWrites(c, ios, l, decode); } else {
      SteadyTurns(c, ios, l, decode);
    }
    DrainIsTheSplit(c.(incoming := c.incoming + Output(ios)), l.frame, decode);
    n := DrainHandsOnAPrefix(c.(incoming := c.incoming + Output(ios)), l.frame, decode);
    hide Drain, Turns, Lines, Tail, Output, Passes, Fold, StopsAt, Steady, Ordinary, Index;
  }
}
