/**
 Meeting availability from reported busy times: clipping to the queried range, merging, and the
 search for alternative slots. Instants are integers; the work window is given by its two ends.
 */
module Availability {
  import opened Options

  datatype Interval = Interval(left: int, right: int)

  function Max(a: int, b: int): int { if a < b then b else a }

  function Min(a: int, b: int): int { if a < b then a else b }

  // The half-open interval meets the slot [t, u).
  predicate Meets(v: Interval, t: int, u: int) { v.left < u && v.right > t }

  predicate Hits(vs: seq<Interval>, t: int, u: int) {
    exists i :: 0 <= i < |vs| && Meets(vs[i], t, u)
  }

  lemma HitsJoin(a: seq<Interval>, b: seq<Interval>, t: int, u: int)
    ensures Hits(a + b, t, u) <==> Hits(a, t, u) || Hits(b, t, u)
  {
    if Hits(a, t, u) {
      var i :| 0 <= i < |a| && Meets(a[i], t, u);
      assert (a + b)[i] == a[i];
    }
    if Hits(b, t, u) {
      var i :| 0 <= i < |b| && Meets(b[i], t, u);
      assert (a + b)[|a| + i] == b[i];
    }
  }

  // ---- one calendar --------------------------------------------------------------------------------

  // What a calendar query returned; anything malformed counts as a failure.
  datatype Reply = Failed | Reported(intervals: seq<Interval>)

  predicate WellFormed(r: Reply) {
    r.Reported? && forall i | 0 <= i < |r.intervals| :: r.intervals[i].left < r.intervals[i].right
  }

  // Clipped intervals meet a slot inside the range exactly when the reported ones do.
  ghost predicate SameHits(a: seq<Interval>, b: seq<Interval>, from: int, to: int) {
    forall t, u | from <= t < u <= to :: Hits(a, t, u) <==> Hits(b, t, u)
  }

  // What a calendar's intervals leave within the range: each one that meets it, cut to it, in order.
  function Clipped(vs: seq<Interval>, from: int, to: int): seq<Interval> {
    if vs == [] then []
    else
      var v := vs[|vs| - 1];
      Clipped(vs[..|vs| - 1], from, to) +
        if Meets(v, from, to) then [Interval(Max(v.left, from), Min(v.right, to))] else []
  }

  method Clip(reply: Reply, from: int, to: int) returns (current: seq<Interval>, ok: bool)
    requires from < to
    ensures ok <==> WellFormed(reply)
    ensures ok ==> current == Clipped(reply.intervals, from, to) && SameHits(current, reply.intervals, from, to)
    ensures forall k | 0 <= k < |current| :: current[k].left < current[k].right
  {
    current := [];
    if reply.Failed? { return current, false; }
    var vs := reply.intervals;
    var i := 0;
    while i < |vs|
      invariant 0 <= i <= |vs|
      invariant forall k | 0 <= k < i :: vs[k].left < vs[k].right
      invariant current == Clipped(vs[..i], from, to) && SameHits(current, vs[..i], from, to)
      invariant forall k | 0 <= k < |current| :: current[k].left < current[k].right
    {
      var v := vs[i];
      if v.left >= v.right { return current, false; }
      ghost var before := current;
      assert vs[..i + 1][..i] == vs[..i];
      if v.left < to && v.right > from {
        current := current + [Interval(if v.left < from then from else v.left, if v.right > to then to else v.right)];
      }
      forall t, u | from <= t < u <= to ensures Hits(current, t, u) <==> Hits(vs[..i + 1], t, u) {
        assert vs[..i + 1] == vs[..i] + [v];
        HitsJoin(vs[..i], [v], t, u);
        assert [v][0] == v;
        assert Hits(before, t, u) <==> Hits(vs[..i], t, u);
        if current != before {
          var w := current[|before|];
          assert current == before + [w] && [w][0] == w;
          HitsJoin(before, [w], t, u);
        }
      }
      i := i + 1;
    }
    assert vs[..i] == vs;
    return current, true;
  }

  // ---- sorting -------------------------------------------------------------------------------------------

  predicate Before(a: Interval, b: Interval) { a.left < b.left || (a.left == b.left && a.right <= b.right) }

  predicate Sorted(vs: seq<Interval>) { forall i, j | 0 <= i < j < |vs| :: Before(vs[i], vs[j]) }

  function Insert(v: Interval, vs: seq<Interval>): (r: seq<Interval>)
    requires Sorted(vs)
    ensures Sorted(r) && forall w :: w in r <==> w == v || w in vs
  {
    if vs == [] || Before(v, vs[0]) then [v] + vs
    else
      assert vs == [vs[0]] + vs[1..];
      var rest := Insert(v, vs[1..]);
      assert Sorted([vs[0]] + rest) by { HeadFirst(vs, rest, v); }
      [vs[0]] + rest
  }

  lemma HeadFirst(vs: seq<Interval>, rest: seq<Interval>, v: Interval)
    requires Sorted(vs) && vs != [] && !Before(v, vs[0]) && Sorted(rest) && forall w ::
        w in rest <==> w == v || w in vs[1..]
    ensures Sorted([vs[0]] + rest)
  {
    forall k | 0 <= k < |rest| ensures Before(vs[0], rest[k]) {
      assert rest[k] in rest;
      if rest[k] != v {
        var i :| 0 <= i < |vs[1..]| && vs[1..][i] == rest[k];
        assert vs[i + 1] == rest[k];
      }
    }
    var all := [vs[0]] + rest;
    forall i, j | 0 <= i < j < |all| ensures Before(all[i], all[j]) {
      if i > 0 { assert Before(rest[i - 1], rest[j - 1]); }
    }
  }

  function Sort(vs: seq<Interval>): (r: seq<Interval>)
    ensures Sorted(r) && forall w :: w in r <==> w in vs
  {
    if vs == [] then [] else assert vs == [vs[0]] + vs[1..]; Insert(vs[0], Sort(vs[1..]))
  }

  lemma SameElements(a: seq<Interval>, b: seq<Interval>, t: int, u: int)
    requires (forall w :: w in a <==> w in b) && Hits(a, t, u)
    ensures Hits(b, t, u)
  {
    var i :| 0 <= i < |a| && Meets(a[i], t, u);
    assert a[i] in b;
    var k :| 0 <= k < |b| && b[k] == a[i];
  }

  lemma SortHits(vs: seq<Interval>, t: int, u: int)
    ensures Hits(Sort(vs), t, u) <==> Hits(vs, t, u)
  {
    if Hits(vs, t, u) { SameElements(vs, Sort(vs), t, u); }
    if Hits(Sort(vs), t, u) { SameElements(Sort(vs), vs, t, u); }
  }

  // ---- merging ----------------------------------------------------------------------------------------------

  // Proper intervals inside the window, with a gap between neighbours.
  predicate Separated(vs: seq<Interval>, begin: int, finish: int) {
    && (forall i | 0 <= i < |vs| :: begin <= vs[i].left < vs[i].right <= finish)
    && (forall i, j | 0 <= i < j < |vs| :: vs[i].right < vs[j].left)
  }

  lemma MergeLast(merged: seq<Interval>, v: Interval, t: int, u: int)
    requires merged != [] && t < u && merged[|merged| - 1].left <= v.left <= merged[|merged| - 1].right
    ensures var last := merged[|merged| - 1];
            Hits(merged[|merged| - 1 := Interval(last.left, if v.right < last.right then last.right else v.right)], t,
                u) <==>
            Hits(merged, t, u) || Meets(v, t, u)
  {
    var n := |merged| - 1;
    var w := Interval(merged[n].left, if v.right < merged[n].right then merged[n].right else v.right);
    assert Meets(w, t, u) <==> Meets(merged[n], t, u) || Meets(v, t, u);
    var next := merged[n := w];
    if Hits(merged, t, u) {
      var i :| 0 <= i < |merged| && Meets(merged[i], t, u);
      assert Meets(next[i], t, u);
    }
    if Meets(v, t, u) { assert Meets(next[n], t, u); }
    if Hits(next, t, u) {
      var i :| 0 <= i < |next| && Meets(next[i], t, u);
      assert i != n ==> Meets(merged[i], t, u);
      assert i == n && Meets(merged[n], t, u) ==> Hits(merged, t, u);
    }
  }

  // One interval, clipped to the window, joins the merged list.
  method Absorb(merged: seq<Interval>, v: Interval, begin: int, finish: int) returns (next: seq<Interval>)
    requires Separated(merged, begin, finish) && v.left < v.right && v.left < finish && v.right > begin
        && begin < finish
    requires merged != [] ==> merged[|merged| - 1].left <= Max(v.left, begin)
    ensures Separated(next, begin, finish) && next != [] && next[|next| - 1].left <= Max(v.left, begin)
    ensures forall t, u | begin <= t < u <= finish :: Hits(next, t, u) <==> Hits(merged, t, u) || Meets(v, t, u)
  {
    var w := Interval(Max(v.left, begin), if v.right > finish then finish else v.right);
    assert forall t, u | begin <= t < u <= finish :: Meets(v, t, u) <==> Meets(w, t, u);
    var n := |merged| - 1;
    if merged != [] && w.left <= merged[n].right {
      next := merged[n := Interval(merged[n].left, if w.right < merged[n].right then merged[n].right else w.right)];
      forall t, u | t < u ensures Hits(next, t, u) <==> Hits(merged, t, u) || Meets(w, t, u) {
        MergeLast(merged, w, t, u);
      }
    } else {
      next := merged + [w];
      forall t, u ensures Hits(next, t, u) <==> Hits(merged, t, u) || Meets(w, t, u) {
        HitsJoin(merged, [w], t, u);
        assert [w][0] == w;
      }
    }
    hide Hits;
  }

  method Merge(busy: seq<Interval>, begin: int, finish: int) returns (merged: seq<Interval>)
    requires begin < finish && Sorted(busy) && forall i | 0 <= i < |busy| :: busy[i].left < busy[i].right
    ensures Separated(merged, begin, finish) && SameHits(merged, busy, begin, finish)
  {
    merged := [];
    var i := 0;
    while i < |busy|
      invariant 0 <= i <= |busy| && Separated(merged, begin, finish)
      invariant SameHits(merged, busy[..i], begin, finish)
      invariant merged != [] ==> forall k | i <= k < |busy| :: merged[|merged| - 1].left <= Max(busy[k].left, begin)
    {
      var v := busy[i];
      ghost var before := merged;
      if !(v.right <= begin || v.left >= finish) {
        merged := Absorb(merged, v, begin, finish);
        assert forall k | i < k < |busy| :: Before(v, busy[k]);
      }
      forall t, u | begin <= t < u <= finish ensures Hits(merged, t, u) <==> Hits(busy[..i + 1], t, u) {
        assert busy[..i + 1] == busy[..i] + [v] && [v][0] == v;
        HitsJoin(busy[..i], [v], t, u);
        assert Hits(before, t, u) <==> Hits(busy[..i], t, u);
      }
      i := i + 1;
    }
    assert busy[..i] == busy;
  }

  // ---- the gap search -----------------------------------------------------------------------------------------

  // A meeting may start at t: not before `from`, done by `finish`, meeting no busy interval.
  predicate Free(vs: seq<Interval>, from: int, finish: int, duration: int, t: int) {
    from <= t && t + duration <= finish && !Hits(vs, t, t + duration)
  }

  // Suggested slots are free, of the meeting's length, in order and disjoint.
  predicate Suggestions(slots: seq<Interval>, vs: seq<Interval>, from: int, finish: int, duration: int) {
    && (forall k | 0 <= k < |slots| ::
        slots[k].right == slots[k].left + duration && Free(vs, from, finish, duration, slots[k].left))
    && (forall j, k | 0 <= j < k < |slots| :: slots[j].right <= slots[k].left)
  }

  // The start t is a later start in the gap of some suggestion.
  predicate Covered(slots: seq<Interval>, vs: seq<Interval>, duration: int, t: int) {
    exists k :: 0 <= k < |slots| && slots[k].left <= t && !Hits(vs, slots[k].left, t + duration)
  }

  // Everything free is covered by a suggestion or lies at or after `cursor`.
  ghost predicate Complete(slots: seq<Interval>, vs: seq<Interval>, from: int, finish: int, duration: int,
      cursor: int) {
    forall t | Free(vs, from, finish, duration, t) :: Covered(slots, vs, duration, t) || t >= cursor
  }

  ghost predicate Earliest(slots: seq<Interval>, vs: seq<Interval>, from: int, finish: int, duration: int) {
    slots != [] ==> forall t | Free(vs, from, finish, duration, t) :: slots[0].left <= t
  }

  // The gap before the i-th interval, seen from the cursor.
  lemma GapIsFree(vs: seq<Interval>, begin: int, finish: int, i: nat, cursor: int, u: int)
    requires Separated(vs, begin, finish) && i <= |vs| && forall k | 0 <= k < i :: vs[k].right <= cursor
    requires i < |vs| ==> u <= vs[i].left
    ensures !Hits(vs, cursor, u)
  {}

  lemma {:induction false} StepComplete(vs: seq<Interval>, begin: int, from: int, finish: int, duration: int, i: nat,
      cursor: int,
                                        slots: seq<Interval>, next: seq<Interval>)
    requires Separated(vs, begin, finish) && duration > 0 && i <= |vs| && from <= cursor
    requires forall k | 0 <= k < i :: vs[k].right <= cursor
    requires Complete(slots, vs, from, finish, duration, cursor)
    requires var left := if i < |vs| then vs[i].left else finish;
             next == if left - cursor >= duration then slots + [Interval(cursor, cursor + duration)] else slots
    ensures Complete(next, vs, from, finish, duration, if i < |vs|
        then Max(cursor, vs[i].right) else Max(cursor, finish))
  {
    var left := if i < |vs| then vs[i].left else finish;
    forall t | Free(vs, from, finish, duration, t)
      ensures Covered(next, vs, duration, t) || t >= if i < |vs| then Max(cursor, vs[i].right) else Max(cursor, finish)
    {
      if Covered(slots, vs, duration, t) {
        var k :| 0 <= k < |slots| && slots[k].left <= t && !Hits(vs, slots[k].left, t + duration);
        assert next[k] == slots[k];
      } else if t + duration <= left {
        GapIsFree(vs, begin, finish, i, cursor, t + duration);
        assert next[|slots|].left == cursor;
      } else if i < |vs| {
        assert !Meets(vs[i], t, t + duration);
      }
    }
  }

  // The slot at the cursor, when the gap before the i-th interval is long enough.
  lemma SuggestionIsGood(vs: seq<Interval>, begin: int, from: int, finish: int, duration: int, i: nat, cursor: int,
      slots: seq<Interval>)
    requires Separated(vs, begin, finish) && duration > 0 && i <= |vs| && from <= cursor
    requires forall k | 0 <= k < i :: vs[k].right <= cursor
    requires (if i < |vs| then vs[i].left else finish) - cursor >= duration
    requires Suggestions(slots, vs, from, finish, duration) && Earliest(slots, vs, from, finish, duration)
    requires Complete(slots, vs, from, finish, duration, cursor) && forall k | 0 <= k < |slots| ::
        slots[k].right <= cursor
    ensures var next := slots + [Interval(cursor, cursor + duration)];
            Suggestions(next, vs, from, finish, duration) && Earliest(next, vs, from, finish, duration)
  {
    hide Suggestions, Earliest, Complete;
    assert Free(vs, from, finish, duration, cursor) by { GapIsFree(vs, begin, finish, i, cursor, cursor + duration); }
    hide Free, Separated, Hits;
    SuggestionsSnoc(slots, vs, from, finish, duration, cursor);
    EarliestSnoc(slots, vs, from, finish, duration, cursor);
  }

  lemma SuggestionsSnoc(slots: seq<Interval>, vs: seq<Interval>, from: int, finish: int, duration: int, t: int)
    requires Suggestions(slots, vs, from, finish, duration) && Free(vs, from, finish, duration, t)
    requires forall k | 0 <= k < |slots| :: slots[k].right <= t
    ensures Suggestions(slots + [Interval(t, t + duration)], vs, from, finish, duration)
  {
    hide Free;
  }

  lemma EarliestSnoc(slots: seq<Interval>, vs: seq<Interval>, from: int, finish: int, duration: int, cursor: int)
    requires Earliest(slots, vs, from, finish, duration) && Complete(slots, vs, from, finish, duration, cursor)
    ensures Earliest(slots + [Interval(cursor, cursor + duration)], vs, from, finish, duration)
  {
    hide Free;
    var next := slots + [Interval(cursor, cursor + duration)];
    forall t | Free(vs, from, finish, duration, t) ensures next[0].left <= t {
      if slots == [] { NothingCovered(vs, duration, t); } else { assert next[0] == slots[0]; }
    }
  }

  // What the search knows before the i-th interval; the end of the window counts as the last one.
  ghost predicate Searching(vs: seq<Interval>, from: int, finish: int, duration: int, i: nat, cursor: int,
      slots: seq<Interval>) {
    && i <= |vs| + 1 && from <= cursor && (i == |vs| + 1 ==> finish <= cursor)
    && (forall k | 0 <= k < i && k < |vs| :: vs[k].right <= cursor)
    && (forall k | 0 <= k < |slots| :: slots[k].right <= cursor)
    && Suggestions(slots, vs, from, finish, duration) && Earliest(slots, vs, from, finish, duration)
    && Complete(slots, vs, from, finish, duration, cursor)
  }

  // The i-th stop of the cursor.
  function Stop(vs: seq<Interval>, finish: int, i: nat): Interval
    requires i <= |vs|
  {
    if i < |vs| then vs[i] else Interval(finish, finish)
  }

  // The cursor moves past a stop; the suggestions are those the gap before it calls for.
  lemma SearchMoves(vs: seq<Interval>, from: int, finish: int, duration: int, i: nat, cursor: int, slots: seq<Interval>,
      next: seq<Interval>, at: int)
    requires i <= |vs| && Searching(vs, from, finish, duration, i, cursor, slots)
        && at == Max(cursor, Stop(vs, finish, i).right)
    requires Suggestions(next, vs, from, finish, duration) && Earliest(next, vs, from, finish, duration)
        && Complete(next, vs, from, finish, duration, at)
    requires forall k | 0 <= k < |next| :: next[k].right <= at
    ensures Searching(vs, from, finish, duration, i + 1, at, next)
  {
    hide Suggestions, Earliest, Complete;
  }

  lemma SearchSuggests(vs: seq<Interval>, begin: int, from: int, finish: int, duration: int, i: nat, cursor: int,
      slots: seq<Interval>)
    requires Separated(vs, begin, finish) && duration > 0 && i <= |vs|
        && Searching(vs, from, finish, duration, i, cursor, slots)
    requires Stop(vs, finish, i).left - cursor >= duration
    ensures Searching(vs, from, finish, duration, i + 1, Max(cursor, Stop(vs, finish, i).right),
        slots + [Interval(cursor, cursor + duration)])
  {
    var next, at := slots + [Interval(cursor, cursor + duration)], Max(cursor, Stop(vs, finish, i).right);
    assert Stop(vs, finish, i).left <= Stop(vs, finish, i).right;
    hide Suggestions, Earliest, Complete, Separated;
    SuggestionIsGood(vs, begin, from, finish, duration, i, cursor, slots);
    StepComplete(vs, begin, from, finish, duration, i, cursor, slots, next);
    forall k | 0 <= k < |next| ensures next[k].right <= at { if k < |slots| { assert next[k] == slots[k]; } }
    hide Searching;
    SearchMoves(vs, from, finish, duration, i, cursor, slots, next, at);
  }

  lemma SearchSkips(vs: seq<Interval>, begin: int, from: int, finish: int, duration: int, i: nat, cursor: int,
      slots: seq<Interval>)
    requires Separated(vs, begin, finish) && duration > 0 && i <= |vs|
        && Searching(vs, from, finish, duration, i, cursor, slots)
    requires Stop(vs, finish, i).left - cursor < duration
    ensures Searching(vs, from, finish, duration, i + 1, Max(cursor, Stop(vs, finish, i).right), slots)
  {
    StepComplete(vs, begin, from, finish, duration, i, cursor, slots, slots);
    SearchMoves(vs, from, finish, duration, i, cursor, slots, slots, Max(cursor, Stop(vs, finish, i).right));
    hide *;
  }

  lemma SearchStarts(vs: seq<Interval>, from: int, finish: int, duration: int)
    ensures Searching(vs, from, finish, duration, 0, from, [])
  {}

  method FindSlots(vs: seq<Interval>, begin: int, from: int, finish: int, duration: int) returns (slots: seq<Interval>)
    requires Separated(vs, begin, finish) && duration > 0
    ensures |slots| <= 3 && Suggestions(slots, vs, from, finish, duration)
        && Earliest(slots, vs, from, finish, duration)
    ensures forall t | Free(vs, from, finish, duration, t) ::
        Covered(slots, vs, duration, t) || (|slots| == 3 && t >= slots[2].right)
  {
    slots := [];
    var cursor := from;
    var i := 0;
    var all := vs + [Interval(finish, finish)];
    SearchStarts(vs, from, finish, duration);
    hide Suggestions, Earliest, Covered, Complete, Free, Separated, Searching;
    while i < |all|
      invariant 0 <= i <= |all| && |slots| < 3 && Searching(vs, from, finish, duration, i, cursor, slots)
    {
      var v := all[i];
      assert v == Stop(vs, finish, i);
      if v.left - cursor >= duration {
        SearchSuggests(vs, begin, from, finish, duration, i, cursor, slots);
        slots := slots + [Interval(cursor, cursor + duration)];
        if |slots| == 3 {
          SearchEnds(vs, from, finish, duration, i + 1, Max(cursor, v.right), slots);
          return;
        }
      } else {
        SearchSkips(vs, begin, from, finish, duration, i, cursor, slots);
      }
      cursor := Max(cursor, v.right);
      i := i + 1;
    }
    SearchEnds(vs, from, finish, duration, i, cursor, slots);
  }

  lemma SearchEnds(vs: seq<Interval>, from: int, finish: int, duration: int, i: nat, cursor: int, slots: seq<Interval>)
    requires duration > 0 && Searching(vs, from, finish, duration, i, cursor, slots)
        && (|slots| == 3 || (|slots| < 3 && i == |vs| + 1))
    ensures Suggestions(slots, vs, from, finish, duration) && Earliest(slots, vs, from, finish, duration)
    ensures forall t | Free(vs, from, finish, duration, t) ::
        Covered(slots, vs, duration, t) || (|slots| == 3 && t >= slots[2].right)
  {
    CompleteMeans(slots, vs, from, finish, duration, cursor);
    hide Suggestions, Earliest, Complete, Free, Covered;
  }

  lemma CompleteMeans(slots: seq<Interval>, vs: seq<Interval>, from: int, finish: int, duration: int, cursor: int)
    requires Complete(slots, vs, from, finish, duration, cursor) && duration > 0
    ensures forall t | Free(vs, from, finish, duration, t) :: Covered(slots, vs, duration, t) || cursor <= t < finish
  {}

  // ---- the query -----------------------------------------------------------------------------------------------

  datatype Conflict = Conflict(target: string, at: Interval)
  datatype Verdict = Unknown | Busy | Available
  datatype Evidence = Evidence(checked: seq<string>, unknown: seq<string>, conflicts: seq<Conflict>,
      alternatives: seq<Interval>, state: Verdict)

  datatype Meeting = Meeting(start: int, end: int, recurring: bool)
  datatype World = World(begin: int, finish: int, now: int, owner: bool, runner: bool)

  predicate Prefix(p: string, s: string) { |p| <= |s| && s[..|p|] == p }

  // At most six calendars are asked, and only people and rooms.
  predicate Asked(w: World, targets: seq<string>, i: nat)
    requires i < |targets|
  {
    w.runner && i < 6 && (Prefix("ou_", targets[i]) || Prefix("omm_", targets[i]))
  }

  predicate Checked(w: World, targets: seq<string>, replies: seq<Reply>, i: nat)
    requires i < |targets| == |replies|
  {
    Asked(w, targets, i) && WellFormed(replies[i])
  }

  // Busy time reported by any calendar that was checked.
  predicate AnyBusy(w: World, targets: seq<string>, replies: seq<Reply>, n: nat, t: int, u: int)
    requires n <= |targets| == |replies|
  {
    exists i :: 0 <= i < n && Checked(w, targets, replies, i) && Hits(replies[i].intervals, t, u)
  }

  function Known(w: World, targets: seq<string>, replies: seq<Reply>, n: nat, yes: bool): seq<string>
    requires n <= |targets| == |replies|
  {
    if n == 0 then []
    else Known(w, targets, replies, n - 1, yes) + (if Checked(w, targets, replies, n - 1) == yes
         then [targets[n - 1]] else [])
  }

  function Caveats(w: World, m: Meeting): seq<string> {
    (if w.owner then [] else ["owner_identity_unconfigured"]) + (if m.recurring then ["recurrence_not_checked"] else [])
  }

  // One conflict for each interval that meets the meeting, in order.
  function Conflicts(target: string, current: seq<Interval>, start: int, end: int): seq<Conflict> {
    if current == [] then []
    else
      var v := current[|current| - 1];
      Conflicts(target, current[..|current| - 1], start, end) +
        if Meets(v, start, end) then [Conflict(target, v)] else []
  }

  // Those of the first n calendars that were checked, one calendar after the other.
  function AllConflicts(w: World, m: Meeting, targets: seq<string>, replies: seq<Reply>, n: nat, from: int,
      to: int): seq<Conflict>
    requires n <= |targets| == |replies|
  {
    if n == 0 then []
    else
      AllConflicts(w, m, targets, replies, n - 1, from, to) +
        if !Checked(w, targets, replies, n - 1) then []
        else Conflicts(targets[n - 1], Clipped(replies[n - 1].intervals, from, to), m.start, m.end)
  }

  lemma {:induction false} ConflictsMeet(target: string, current: seq<Interval>, start: int, end: int)
    ensures var found := Conflicts(target, current, start, end);
            && (found != [] <==> Hits(current, start, end))
            && forall c | c in found :: c.target == target && c.at in current && Meets(c.at, start, end)
  {
    if current != [] {
      var front, v := current[..|current| - 1], current[|current| - 1];
      ConflictsMeet(target, front, start, end);
      assert current == front + [v] && [v][0] == v;
      HitsJoin(front, [v], start, end);
      hide Hits, Meets;
    }
  }

  method Overlapping(target: string, current: seq<Interval>, start: int, end: int) returns (found: seq<Conflict>)
    ensures found == Conflicts(target, current, start, end)
    ensures found != [] <==> Hits(current, start, end)
    ensures forall c | c in found :: c.target == target && c.at in current && Meets(c.at, start, end)
  {
    found := [];
    var i := 0;
    while i < |current|
      invariant 0 <= i <= |current|
      invariant found == Conflicts(target, current[..i], start, end)
    {
      assert current[..i + 1][..i] == current[..i];
      if current[i].left < end && current[i].right > start { found := found + [Conflict(target, current[i])]; }
      i := i + 1;
    }
    assert current[..i] == current;
    ConflictsMeet(target, current, start, end);
    hide *;
  }

  // Every calendar in turn.
  method Gather(w: World, m: Meeting, targets: seq<string>, replies: seq<Reply>, from: int, to: int)
    returns (e: Evidence, busy: seq<Interval>)
    requires |targets| == |replies| && from <= m.start < m.end <= to
    ensures e.checked == Known(w, targets, replies, |targets|, true)
    ensures e.unknown == Caveats(w, m) + Known(w, targets, replies, |targets|, false)
    ensures e.conflicts == AllConflicts(w, m, targets, replies, |targets|, from, to)
    ensures e.conflicts != [] <==> AnyBusy(w, targets, replies, |targets|, m.start, m.end)
    ensures forall t, u | from <= t < u <= to :: Hits(busy, t, u) <==> AnyBusy(w, targets, replies, |targets|, t, u)
    ensures forall k | 0 <= k < |busy| :: busy[k].left < busy[k].right
    ensures e.alternatives == [] && e.state.Unknown?
  {
    e, busy := Evidence([], Caveats(w, m), [], [], Unknown), [];
    var i := 0;
    while i < |targets|
      invariant 0 <= i <= |targets|
      invariant e.checked == Known(w, targets, replies, i, true) && e.unknown ==
          Caveats(w, m) + Known(w, targets, replies, i, false)
      invariant e.conflicts == AllConflicts(w, m, targets, replies, i, from, to)
      invariant e.conflicts != [] <==> AnyBusy(w, targets, replies, i, m.start, m.end)
      invariant forall t, u | from <= t < u <= to :: Hits(busy, t, u) <==> AnyBusy(w, targets, replies, i, t, u)
      invariant forall k | 0 <= k < |busy| :: busy[k].left < busy[k].right
      invariant e.alternatives == [] && e.state.Unknown?
    {
      var ok, current := false, [];
      if Asked(w, targets, i) { current, ok := Clip(replies[i], from, to); }
      forall t, u ensures AnyBusy(w, targets, replies, i + 1, t, u) <==>
                            AnyBusy(w, targets, replies, i, t, u) || (ok && Hits(replies[i].intervals, t, u)) {
        AnyBusyStep(w, targets, replies, i, t, u);
      }
      hide AnyBusy, Hits;
      if !ok {
        e := e.(unknown := e.unknown + [targets[i]]);
      } else {
        var found := Overlapping(targets[i], current, m.start, m.end);
        forall t, u ensures Hits(busy + current, t, u) <==> Hits(busy, t, u) || Hits(current, t, u) {
          HitsJoin(busy, current, t, u);
        }
        e := e.(checked := e.checked + [targets[i]], conflicts := e.conflicts + found);
        busy := busy + current;
      }
      i := i + 1;
    }
  }

  lemma AnyBusyStep(w: World, targets: seq<string>, replies: seq<Reply>, i: nat, t: int, u: int)
    requires i < |targets| == |replies|
    ensures AnyBusy(w, targets, replies, i + 1, t, u) <==>
              AnyBusy(w, targets, replies, i, t, u) || (Checked(w, targets, replies, i)
                  && Hits(replies[i].intervals, t, u))
  {
    hide Hits, Checked;
  }

  // ---- what the evidence must list, place by place --------------------------------------------------------------

  // The calendar was asked and answered with proper intervals only.
  predicate Answered(w: World, targets: seq<string>, replies: seq<Reply>, i: nat)
    requires |targets| == |replies|
  {
    && i < |targets| && i < 6 && w.runner
    && ((|targets[i]| >= 3 && targets[i][..3] == "ou_") || (|targets[i]| >= 4 && targets[i][..4] == "omm_"))
    && replies[i].Reported?
    && (forall k | 0 <= k < |replies[i].intervals| :: replies[i].intervals[k].left < replies[i].intervals[k].right)
  }

  ghost predicate Rising(ks: seq<nat>) { forall j, k | 0 <= j < k < |ks| :: ks[j] < ks[k] }

  // The list names, in order, exactly the targets that answered, or exactly those that did not.
  ghost predicate Sorts(w: World, targets: seq<string>, replies: seq<Reply>, list: seq<string>, yes: bool)
    requires |targets| == |replies|
  {
    exists ks: seq<nat> ::
      && Rising(ks) && (forall i: nat :: i in ks <==> i < |targets| && Answered(w, targets, replies, i) == yes)
      && |list| == |ks| && (forall j | 0 <= j < |ks| :: ks[j] < |targets| && list[j] == targets[ks[j]])
  }

  // The place of a reported interval: its calendar, and its position in that calendar's reply.
  datatype Place = Place(calendar: nat, interval: nat)

  predicate Clashes(w: World, m: Meeting, targets: seq<string>, replies: seq<Reply>, p: Place)
    requires |targets| == |replies|
  {
    && Answered(w, targets, replies, p.calendar) && p.interval < |replies[p.calendar].intervals|
    && (var v := replies[p.calendar].intervals[p.interval]; v.left < m.end && m.start < v.right)
  }

  // The conflict reported for a place: the calendar, and its interval within what the query covers.
  function Reported(w: World, m: Meeting, targets: seq<string>, replies: seq<Reply>, p: Place): Conflict
    requires |targets| == |replies| && Clashes(w, m, targets, replies, p)
  {
    var v := replies[p.calendar].intervals[p.interval];
    var from := if m.start < w.begin then m.start else w.begin;
    var to := if m.end > w.finish then m.end else w.finish;
    Conflict(targets[p.calendar], Interval(if v.left < from then from else v.left, if v.right > to
        then to else v.right))
  }

  // Calendar by calendar, and within one interval by interval.
  ghost predicate InOrder(ps: seq<Place>) {
    forall j, k | 0 <= j < k < |ps| ::
      ps[j].calendar < ps[k].calendar || (ps[j].calendar == ps[k].calendar && ps[j].interval < ps[k].interval)
  }

  // The conflicts of the first n calendars: one for every place that clashes, none other, in order.
  ghost predicate ListedAt(w: World, m: Meeting, targets: seq<string>, replies: seq<Reply>, n: nat,
                           conflicts: seq<Conflict>, ps: seq<Place>)
    requires |targets| == |replies|
  {
    && InOrder(ps) && (forall p :: p in ps <==> p.calendar < n && Clashes(w, m, targets, replies, p))
    && |conflicts| == |ps|
    && (forall j | 0 <= j < |ps| ::
        Clashes(w, m, targets, replies, ps[j]) && conflicts[j] == Reported(w, m, targets, replies, ps[j]))
  }

  ghost predicate ListsConflicts(w: World, m: Meeting, targets: seq<string>, replies: seq<Reply>,
      conflicts: seq<Conflict>)
    requires |targets| == |replies|
  {
    exists ps :: ListedAt(w, m, targets, replies, |targets|, conflicts, ps)
  }

  function Cut(v: Interval, from: int, to: int): Interval { Interval(Max(v.left, from), Min(v.right, to)) }

  lemma ConflictsSnoc(target: string, vs: seq<Interval>, from: int, to: int, start: int, end: int)
    requires from <= start < end <= to && vs != [] && vs[|vs| - 1].left < vs[|vs| - 1].right
    ensures var front, v := vs[..|vs| - 1], vs[|vs| - 1];
            Conflicts(target, Clipped(vs, from, to), start, end) ==
              Conflicts(target, Clipped(front, from, to), start, end) +
                if Meets(v, start, end) then [Conflict(target, Cut(v, from, to))] else []
  {
    var kept, v := Clipped(vs[..|vs| - 1], from, to), vs[|vs| - 1];
    assert Clipped(vs, from, to) == if Meets(v, from, to) then kept + [Cut(v, from, to)] else kept;
    assert (kept + [Cut(v, from, to)])[..|kept|] == kept;
    assert Meets(Cut(v, from, to), start, end) <==> Meets(v, start, end);
    hide Clipped;
  }

  // Which intervals of one calendar the filter keeps, and what it makes of them.
  lemma {:induction false} KeepsMeeting(target: string, vs: seq<Interval>, from: int, to: int, start: int, end: int)
    returns (ks: seq<nat>)
    requires from <= start < end <= to && forall k | 0 <= k < |vs| :: vs[k].left < vs[k].right
    ensures Rising(ks) && forall k: nat :: k in ks <==> k < |vs| && Meets(vs[k], start, end)
    ensures var found := Conflicts(target, Clipped(vs, from, to), start, end);
            |found| == |ks| && forall j | 0 <= j < |ks| ::
                ks[j] < |vs| && found[j] == Conflict(target, Cut(vs[ks[j]], from, to))
  {
    if vs == [] { return []; }
    var n := |vs| - 1;
    ks := KeepsMeeting(target, vs[..n], from, to, start, end);
    ConflictsSnoc(target, vs, from, to, start, end);
    hide Conflicts, Clipped, Meets, Cut;
    if Meets(vs[n], start, end) { ks := ks + [n]; }
  }

  lemma AnsweredIsChecked(w: World, targets: seq<string>, replies: seq<Reply>, i: nat)
    requires i < |targets| == |replies|
    ensures Answered(w, targets, replies, i) <==> Checked(w, targets, replies, i)
  {}

  // One more calendar: its clashing places follow those of the calendars before it.
  lemma PlacesOf(w: World, m: Meeting, targets: seq<string>, replies: seq<Reply>, n: nat, from: int, to: int)
    returns (ps: seq<Place>)
    requires n < |targets| == |replies| && m.start < m.end && Checked(w, targets, replies, n)
    requires from == Min(m.start, w.begin) && to == Max(m.end, w.finish)
    ensures var found := Conflicts(targets[n], Clipped(replies[n].intervals, from, to), m.start, m.end);
            && InOrder(ps) && (forall p :: p in ps <==> p.calendar == n && Clashes(w, m, targets, replies, p))
            && |found| == |ps|
            && (forall j | 0 <= j < |ps| ::
                  Clashes(w, m, targets, replies, ps[j]) && found[j] == Reported(w, m, targets, replies, ps[j]))
  {
    var vs := replies[n].intervals;
    AnsweredIsChecked(w, targets, replies, n);
    var ks := KeepsMeeting(targets[n], vs, from, to, m.start, m.end);
    hide Conflicts, Clipped, Answered, Checked;
    ps := seq(|ks|, j requires 0 <= j < |ks| => Place(n, ks[j]));
    forall p ensures p in ps <==> p.calendar == n && Clashes(w, m, targets, replies, p) {
      if p in ps {
        var j :| 0 <= j < |ps| && ps[j] == p;
        assert ks[j] in ks;
      }
      if p.calendar == n && Clashes(w, m, targets, replies, p) {
        assert p.interval in ks;
        var j :| 0 <= j < |ks| && ks[j] == p.interval;
        assert ps[j] == p;
      }
    }
    assert forall j | 0 <= j < |ps| :: ps[j] in ps;
  }

  lemma {:induction false} PlacesUpTo(w: World, m: Meeting, targets: seq<string>, replies: seq<Reply>, n: nat,
      from: int, to: int)
    returns (ps: seq<Place>)
    requires n <= |targets| == |replies| && m.start < m.end
    requires from == Min(m.start, w.begin) && to == Max(m.end, w.finish)
    ensures ListedAt(w, m, targets, replies, n, AllConflicts(w, m, targets, replies, n, from, to), ps)
  {
    if n == 0 { return []; }
    ps := PlacesUpTo(w, m, targets, replies, n - 1, from, to);
    AnsweredIsChecked(w, targets, replies, n - 1);
    if Checked(w, targets, replies, n - 1) {
      var more := PlacesOf(w, m, targets, replies, n - 1, from, to);
      hide Conflicts, Clipped, Checked, Reported, Clashes, ListedAt;
      PlacesJoin(w, m, targets, replies, n - 1, AllConflicts(w, m, targets, replies, n - 1, from, to), ps,
                 Conflicts(targets[n - 1], Clipped(replies[n - 1].intervals, from, to), m.start, m.end), more);
      ps := ps + more;
    } else {
      hide Conflicts, Clipped, Checked, Reported;
    }
  }

  lemma PlacesJoin(w: World, m: Meeting, targets: seq<string>, replies: seq<Reply>, n: nat,
                   conflicts: seq<Conflict>, ps: seq<Place>, found: seq<Conflict>, more: seq<Place>)
    requires |targets| == |replies| && ListedAt(w, m, targets, replies, n, conflicts, ps)
    requires InOrder(more) && (forall p :: p in more <==> p.calendar == n && Clashes(w, m, targets, replies, p))
    requires |found| == |more| && forall j | 0 <= j < |more| ::
      Clashes(w, m, targets, replies, more[j]) && found[j] == Reported(w, m, targets, replies, more[j])
    ensures ListedAt(w, m, targets, replies, n + 1, conflicts + found, ps + more)
  {
    hide Clashes, Reported;
    assert forall j | 0 <= j < |ps| :: ps[j] in ps;
    assert forall j | 0 <= j < |more| :: more[j] in more;
  }

  lemma {:induction false} KnownAt(w: World, targets: seq<string>, replies: seq<Reply>, n: nat,
      yes: bool) returns (ks: seq<nat>)
    requires n <= |targets| == |replies|
    ensures Rising(ks) && forall i: nat :: i in ks <==> i < n && Answered(w, targets, replies, i) == yes
    ensures var list := Known(w, targets, replies, n, yes);
            |list| == |ks| && forall j | 0 <= j < |ks| :: ks[j] < n && list[j] == targets[ks[j]]
  {
    if n == 0 { return []; }
    ks := KnownAt(w, targets, replies, n - 1, yes);
    AnsweredIsChecked(w, targets, replies, n - 1);
    hide Answered, Checked;
    if Checked(w, targets, replies, n - 1) == yes { ks := ks + [n - 1]; }
  }

  lemma KnownSorts(w: World, targets: seq<string>, replies: seq<Reply>, yes: bool)
    requires |targets| == |replies|
    ensures Sorts(w, targets, replies, Known(w, targets, replies, |targets|, yes), yes)
  {
    var ks := KnownAt(w, targets, replies, |targets|, yes);
    hide Known, Answered;
  }

  // What is unknown before any calendar is asked.
  lemma CaveatsAre(w: World, m: Meeting)
    ensures Caveats(w, m) ==
              match (w.owner, m.recurring)
              case (true, false) => []
              case (true, true) => ["recurrence_not_checked"]
              case (false, false) => ["owner_identity_unconfigured"]
              case (false, true) => ["owner_identity_unconfigured", "recurrence_not_checked"]
  {}

  // A start at which every reported calendar is free, inside the work window and not in the past.
  predicate Possible(w: World, m: Meeting, targets: seq<string>, replies: seq<Reply>, t: int)
    requires |targets| == |replies|
  {
    && Max(w.begin, w.now) <= t && t + (m.end - m.start) <= w.finish
    && !AnyBusy(w, targets, replies, |targets|, t, t + (m.end - m.start))
  }

  // The start t lies in the gap that some suggestion opens.
  predicate InGap(w: World, m: Meeting, targets: seq<string>, replies: seq<Reply>, slots: seq<Interval>, t: int)
    requires |targets| == |replies|
  {
    exists k :: 0 <= k < |slots| && slots[k].left <= t && !AnyBusy(w, targets, replies, |targets|, slots[k].left,
                t + (m.end - m.start))
  }

  /** Suggested slots: at most three, possible, of the meeting's length, ordered and disjoint; the first
      is the earliest possible start, and every possible start lies in a suggested gap or, when three
      were suggested, after the third. */
  ghost predicate GoodSlots(w: World, m: Meeting, targets: seq<string>, replies: seq<Reply>, slots: seq<Interval>)
    requires |targets| == |replies|
  {
    && |slots| <= 3
    && (forall k | 0 <= k < |slots| ::
        slots[k].right == slots[k].left + (m.end - m.start) && Possible(w, m, targets, replies, slots[k].left))
    && (forall j, k | 0 <= j < k < |slots| :: slots[j].right <= slots[k].left)
    && (forall t | Possible(w, m, targets, replies, t) ::
          slots != [] && slots[0].left <= t && ((|slots| == 3 && t >= slots[2].right)
              || InGap(w, m, targets, replies, slots, t)))
  }

  /** Missing access is never free time: alternatives are offered only when every calendar was read
      and the meeting conflicts, and then they are good slots for all of them. */
  method Query(w: World, m: Meeting, targets: seq<string>, replies: seq<Reply>) returns (e: Evidence)
    requires |targets| == |replies| && m.start < m.end && w.begin < w.finish
    ensures e.checked == Known(w, targets, replies, |targets|, true) && Sorts(w, targets, replies, e.checked, true)
    ensures e.unknown == Caveats(w, m) + Known(w, targets, replies, |targets|, false)
    ensures var n := |Caveats(w, m)|;
            |e.unknown| >= n && Sorts(w, targets, replies, e.unknown[n..], false)
    ensures ListsConflicts(w, m, targets, replies, e.conflicts)
    ensures e.state.Busy? <==> AnyBusy(w, targets, replies, |targets|, m.start, m.end)
    ensures e.state.Available? <==>
        !AnyBusy(w, targets, replies, |targets|, m.start, m.end) && e.unknown == [] && e.checked != []
    ensures e.alternatives != [] ==> e.state.Busy? && e.unknown == []
    ensures e.state.Busy? && e.unknown == [] ==> GoodSlots(w, m, targets, replies, e.alternatives)
  {
    var from := if m.start < w.begin then m.start else w.begin;
    var to := if m.end > w.finish then m.end else w.finish;
    var busy;
    e, busy := Gather(w, m, targets, replies, from, to);
    KnownSorts(w, targets, replies, true);
    KnownSorts(w, targets, replies, false);
    ghost var ps := PlacesUpTo(w, m, targets, replies, |targets|, from, to);
    hide Sorts, ListedAt, Known, AllConflicts, AnyBusy, Caveats;
    if e.conflicts != [] {
      e := e.(state := Busy);
    } else if e.unknown == [] && e.checked != [] {
      e := e.(state := Available);
    }
    if !e.state.Busy? || e.unknown != [] { return; }
    var slots := Alternatives(w, m, targets, replies, busy);
    e := e.(alternatives := slots);
  }

  // The slots for the merged busy time, restated for the calendars themselves.
  method Alternatives(w: World, m: Meeting, targets: seq<string>, replies: seq<Reply>,
      busy: seq<Interval>) returns (slots: seq<Interval>)
    requires |targets| == |replies| && m.start < m.end && w.begin < w.finish
    requires forall t, u | w.begin <= t < u <= w.finish ::
        Hits(busy, t, u) <==> AnyBusy(w, targets, replies, |targets|, t, u)
    requires forall k | 0 <= k < |busy| :: busy[k].left < busy[k].right
    ensures GoodSlots(w, m, targets, replies, slots)
  {
    var sorted := Sort(busy);
    ProperStay(busy);
    var merged := Merge(sorted, w.begin, w.finish);
    forall t, u | w.begin <= t < u <= w.finish ensures Hits(merged, t, u) <==>
        AnyBusy(w, targets, replies, |targets|, t, u) {
      SortHits(busy, t, u);
    }
    hide AnyBusy, Hits, Sorted;
    slots := FindSlots(merged, w.begin, Max(w.begin, w.now), w.finish, m.end - m.start);
    SlotsAreGood(w, m, targets, replies, merged, slots);
  }

  lemma SlotsAreGood(w: World, m: Meeting, targets: seq<string>, replies: seq<Reply>, merged: seq<Interval>,
      slots: seq<Interval>)
    requires |targets| == |replies| && m.start < m.end
    requires forall t, u | w.begin <= t < u <= w.finish ::
        Hits(merged, t, u) <==> AnyBusy(w, targets, replies, |targets|, t, u)
    requires |slots| <= 3
    requires var from, duration := Max(w.begin, w.now), m.end - m.start;
             && Suggestions(slots, merged, from, w.finish, duration) && Earliest(slots, merged, from, w.finish,
                 duration)
             && forall t | Free(merged, from, w.finish, duration, t) ::
                 Covered(slots, merged, duration, t) || (|slots| == 3 && t >= slots[2].right)
    ensures GoodSlots(w, m, targets, replies, slots)
  {
    var from, duration := Max(w.begin, w.now), m.end - m.start;
    hide Free, Possible, Covered, InGap;
    forall t ensures Free(merged, from, w.finish, duration, t) <==> Possible(w, m, targets, replies, t) {
      FreeIsPossible(w, m, targets, replies, merged, t);
    }
    forall t | Possible(w, m, targets, replies, t) ensures Covered(slots, merged, duration, t) ==>
        InGap(w, m, targets, replies, slots, t) {
      if Covered(slots, merged, duration, t) { CoveredIsInGap(w, m, targets, replies, merged, slots, t); }
    }
    forall t | Possible(w, m, targets, replies, t) ensures slots != [] {
      NothingCovered(merged, duration, t);
    }
  }

  lemma NothingCovered(merged: seq<Interval>, duration: int, t: int)
    ensures !Covered([], merged, duration, t)
  {}

  lemma FreeIsPossible(w: World, m: Meeting, targets: seq<string>, replies: seq<Reply>, merged: seq<Interval>, t: int)
    requires |targets| == |replies| && m.start < m.end
    requires forall t, u | w.begin <= t < u <= w.finish ::
        Hits(merged, t, u) <==> AnyBusy(w, targets, replies, |targets|, t, u)
    ensures Free(merged, Max(w.begin, w.now), w.finish, m.end - m.start, t) <==> Possible(w, m, targets, replies, t)
  {
    hide AnyBusy, Hits;
  }

  lemma CoveredIsInGap(w: World, m: Meeting, targets: seq<string>, replies: seq<Reply>, merged: seq<Interval>,
      slots: seq<Interval>, t: int)
    requires |targets| == |replies| && m.start < m.end
    requires forall t, u | w.begin <= t < u <= w.finish ::
        Hits(merged, t, u) <==> AnyBusy(w, targets, replies, |targets|, t, u)
    requires Suggestions(slots, merged, Max(w.begin, w.now), w.finish, m.end - m.start)
    requires Possible(w, m, targets, replies, t) && Covered(slots, merged, m.end - m.start, t)
    ensures InGap(w, m, targets, replies, slots, t)
  {
    var k :| 0 <= k < |slots| && slots[k].left <= t && !Hits(merged, slots[k].left, t + (m.end - m.start));
    assert Free(merged, Max(w.begin, w.now), w.finish, m.end - m.start, slots[k].left);
    hide AnyBusy, Hits;
    assert !AnyBusy(w, targets, replies, |targets|, slots[k].left, t + (m.end - m.start));
  }

  lemma ProperStay(busy: seq<Interval>)
    requires forall k | 0 <= k < |busy| :: busy[k].left < busy[k].right
    ensures forall k | 0 <= k < |Sort(busy)| :: Sort(busy)[k].left < Sort(busy)[k].right
  {
    forall k | 0 <= k < |Sort(busy)| ensures Sort(busy)[k].left < Sort(busy)[k].right {
      assert Sort(busy)[k] in busy;
    }
  }
}
