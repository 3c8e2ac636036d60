/**
 The dependency scan over JSON columns: which rows mention an event by its key or external id,
 in any string value or object key at any depth. The source walks each document with an explicit
 stack under budgets; the definition it must equal is recursive.
 */
module JsonScan {
  import opened Options

  // ---- documents ------------------------------------------------------------------------------------

  // A JSON text; an object is its members in order, duplicates included.
  datatype Json = Null | Bool(flag: bool) | Number(text: string) | String(text: string) | List(items: seq<Json>) |
      Object(members: seq<Member>)
  datatype Member = Member(key: string, value: Json)

  // The definition: a string value or an object key somewhere in the document.
  predicate Contains(j: Json, s: string) {
    match j
    case String(text) => text == s
    case List(items) => exists i :: 0 <= i < |items| && Contains(items[i], s)
    case Object(members) => exists i :: 0 <= i < |members| && (members[i].key == s || Contains(members[i].value, s))
    case _ => false
  }

  // What the decoder yields: the hook turns every object into a list of [key, value] lists.
  datatype Value = Atom | Text(text: string) | Items(items: seq<Value>)

  function Decode(j: Json): Value {
    match j
    case String(text) => Text(text)
    case List(items) => Items(seq(|items|, i requires 0 <= i < |items| => Decode(items[i])))
    case Object(members) => Items(seq(|members|,
        i requires 0 <= i < |members| => Items([Text(members[i].key), Decode(members[i].value)])))
    case _ => Atom
  }

  predicate Holds(v: Value, s: string) {
    match v
    case Text(text) => text == s
    case Items(items) => exists i :: 0 <= i < |items| && Holds(items[i], s)
    case Atom => false
  }

  lemma PairHolds(key: string, v: Value, s: string)
    ensures Holds(Items([Text(key), v]), s) <==> key == s || Holds(v, s)
  {
    var pair := Items([Text(key), v]);
    assert pair.items[0] == Text(key) && pair.items[1] == v;
    assert Holds(Text(key), s) <==> key == s;
  }

  /** Decoding through the hook loses no string: not in nested objects, not behind duplicate keys. */
  lemma {:induction false} DecodeKeepsStrings(j: Json, s: string)
    ensures Holds(Decode(j), s) <==> Contains(j, s)
  {
    match j
    case List(items) =>
      forall i | 0 <= i < |items| ensures Holds(Decode(j).items[i], s) <==> Contains(items[i], s) {
        DecodeKeepsStrings(items[i], s);
      }
    case Object(members) =>
      forall i | 0 <= i < |members| ensures Holds(Decode(j).items[i], s) <==>
          members[i].key == s || Contains(members[i].value, s) {
        PairHolds(members[i].key, Decode(members[i].value), s);
        DecodeKeepsStrings(members[i].value, s);
      }
    case _ =>
  }

  // ---- node counts ------------------------------------------------------------------------------------

  function Size(v: Value): nat {
    match v
    case Items(items) => 1 + Sizes(items)
    case _ => 1
  }

  function Sizes(vs: seq<Value>): nat {
    if vs == [] then 0 else Sizes(vs[..|vs| - 1]) + Size(vs[|vs| - 1])
  }

  lemma {:induction false} SizesJoin(a: seq<Value>, b: seq<Value>)
    ensures Sizes(a + b) == Sizes(a) + Sizes(b)
    decreases |b|
  {
    if b == [] {
      assert a + b == a;
    } else {
      assert (a + b)[..|a + b| - 1] == a + b[..|b| - 1];
      SizesJoin(a, b[..|b| - 1]);
    }
  }

  predicate AnyHolds(vs: seq<Value>, s: string) {
    exists i :: 0 <= i < |vs| && Holds(vs[i], s)
  }

  lemma AnyHoldsJoin(a: seq<Value>, b: seq<Value>, s: string)
    ensures AnyHolds(a + b, s) <==> AnyHolds(a, s) || AnyHolds(b, s)
  {
    if AnyHolds(a, s) {
      var i :| 0 <= i < |a| && Holds(a[i], s);
      assert (a + b)[i] == a[i];
    }
    if AnyHolds(b, s) {
      var i :| 0 <= i < |b| && Holds(b[i], s);
      assert (a + b)[|a| + i] == b[i];
    }
  }

  lemma PopHolds(pending: seq<Value>, s: string)
    requires pending != []
    ensures AnyHolds(pending, s) <==> AnyHolds(pending[..|pending| - 1], s) || Holds(pending[|pending| - 1], s)
  {
    var front, v := pending[..|pending| - 1], pending[|pending| - 1];
    assert pending == front + [v];
    AnyHoldsJoin(front, [v], s);
    assert [v][0] == v;
  }

  // ---- the stack walk ----------------------------------------------------------------------------------

  // Every search string with the events it stands for.
  type Targets = map<string, set<string>>

  function At(targets: Targets, s: string): set<string> { if s in targets then targets[s] else {} }

  ghost predicate Hit(targets: Targets, vs: seq<Value>, e: string) {
    exists s :: s in targets && e in targets[s] && AnyHolds(vs, s)
  }

  // `late(records, nodes)` tells whether the clock read at that point is past the deadline.
  type Clock = (nat, nat) -> bool

  ghost predicate OnTime(late: Clock, records: nat, low: nat, high: nat) {
    forall n | low < n <= high :: !late(records, n)
  }

  lemma PopHit(targets: Targets, pending: seq<Value>, e: string)
    requires pending != []
    ensures var v := pending[|pending| - 1]; var front := pending[..|pending| - 1];
            var next := if v.Items? then front + v.items else front;
            var found := if v.Text? then At(targets, v.text) else {};
            Hit(targets, pending, e) <==> e in found || Hit(targets, next, e)
  {
    var v, front := pending[|pending| - 1], pending[..|pending| - 1];
    forall s ensures AnyHolds(pending, s) <==>
        (v.Text? && v.text == s) || AnyHolds(if v.Items? then front + v.items else front, s) {
      PopHolds(pending, s);
      if v.Items? { AnyHoldsJoin(front, v.items, s); assert Holds(v, s) <==> AnyHolds(v.items, s); }
    }
    hide AnyHolds;
  }

  /** The explicit stack equals the recursive definition: it finishes exactly when the document fits
      the node budget in time, and then reports exactly the events whose strings it holds. */
  method Walk(value: Value, targets: Targets, records: nat, nodes: nat, maxNodes: nat, late: Clock)
    returns (matches: set<string>, used: nat, ok: bool)
    requires nodes <= maxNodes
    ensures ok <==> nodes + Size(value) <= maxNodes && OnTime(late, records, nodes, nodes + Size(value))
    ensures ok ==> used == nodes + Size(value)
    ensures ok ==> forall e :: e in matches <==> Hit(targets, [value], e)
  {
    var pending := [value];
    matches, used := {}, nodes;
    assert [value][..0] == [];
    while pending != []
      invariant used + Sizes(pending) == nodes + Size(value)
      invariant used <= maxNodes && OnTime(late, records, nodes, used)
      invariant forall e :: Hit(targets, [value], e) <==> e in matches || Hit(targets, pending, e)
      decreases Sizes(pending)
    {
      used := used + 1;
      var v, front := pending[|pending| - 1], pending[..|pending| - 1];
      assert Size(v) >= 1;
      if used > maxNodes || late(records, used) { return matches, used, false; }
      forall e { PopHit(targets, pending, e); }
      hide Hit;
      match v
      case Text(text) =>
        matches := matches + At(targets, text);
        pending := front;
      case Items(items) =>
        SizesJoin(front, items);
        pending := front + items;
      case Atom =>
        pending := front;
    }
    return matches, used, true;
  }

  // ---- records, columns and budgets ------------------------------------------------------------------------

  // A column value: NULL, a number, a blob or text of a size; the last two parse or do not.
  datatype Cell = Missing | Numeric | Blob(parsed: Option<Json>) | Stored(size: nat, parsed: Option<Json>)
  datatype Record = Record(owner: Option<string>, cell: Cell)
  datatype Column = Column(table: string, name: string, records: seq<Record>)
  datatype Event = Event(pk: string, external: string)
  datatype Limits = Limits(records: nat, bytes: nat, nodes: nat)

  function Document(c: Cell): Option<Json> { if c.Blob? || c.Stored? then c.parsed else None }

  predicate Readable(r: Record) { r.cell.Missing? || Document(r.cell).Some? }

  // The record belongs to another row and mentions the event.
  predicate Mentions(r: Record, e: Event) {
    && Document(r.cell).Some? && r.owner != Some(e.pk)
    && (Contains(Document(r.cell).value, e.pk) || Contains(Document(r.cell).value, e.external))
  }

  // The number of rows that mention the event.
  ghost function Count(records: seq<Record>, e: Event): nat {
    |set i | 0 <= i < |records| && Mentions(records[i], e)|
  }

  lemma CountSnoc(records: seq<Record>, r: Record, e: Event)
    ensures Count(records + [r], e) == Count(records, e) + (if Mentions(r, e) then 1 else 0)
  {
    var a := set i | 0 <= i < |records| && Mentions(records[i], e);
    var b := set i | 0 <= i < |records + [r]| && Mentions((records + [r])[i], e);
    assert b == if Mentions(r, e) then a + {|records|} else a;
  }

  function BytesOf(r: Record): nat { if r.cell.Stored? then r.cell.size else 0 }
  function NodesOf(r: Record): nat { if Document(r.cell).Some? then Size(Decode(Document(r.cell).value)) else 0 }

  function Bytes(rs: seq<Record>): nat { if rs == [] then 0 else Bytes(rs[..|rs| - 1]) + BytesOf(rs[|rs| - 1]) }
  function Nodes(rs: seq<Record>): nat { if rs == [] then 0 else Nodes(rs[..|rs| - 1]) + NodesOf(rs[|rs| - 1]) }

  ghost predicate InTime(rs: seq<Record>, late: Clock) {
    rs == [] ||
    var front := rs[..|rs| - 1];
    InTime(front, late) && !late(|rs|, Nodes(front)) && OnTime(late, |rs|, Nodes(front), Nodes(rs))
  }

  // The whole scan of these records stays within every budget.
  ghost predicate Affordable(rs: seq<Record>, limits: Limits, late: Clock) {
    |rs| <= limits.records && Bytes(rs) <= limits.bytes && Nodes(rs) <= limits.nodes && InTime(rs, late)
  }

  lemma AffordableStep(rs: seq<Record>, r: Record, limits: Limits, late: Clock)
    ensures Bytes(rs + [r]) == Bytes(rs) + BytesOf(r) && Nodes(rs + [r]) == Nodes(rs) + NodesOf(r)
    ensures Affordable(rs + [r], limits, late) <==>
              && Affordable(rs, limits, late) && |rs| + 1 <= limits.records && Bytes(rs) + BytesOf(r) <= limits.bytes
              && Nodes(rs) + NodesOf(r) <= limits.nodes && !late(|rs| + 1, Nodes(rs))
                  && OnTime(late, |rs| + 1, Nodes(rs), Nodes(rs) + NodesOf(r))
  {
    assert (rs + [r])[..|rs|] == rs;
  }

  lemma {:induction false} AffordablePrefix(a: seq<Record>, b: seq<Record>, limits: Limits, late: Clock)
    requires Affordable(a + b, limits, late)
    ensures Affordable(a, limits, late)
    decreases |b|
  {
    if b == [] {
      assert a + b == a;
    } else {
      var front, r := b[..|b| - 1], b[|b| - 1];
      assert a + b == (a + front) + [r];
      AffordableStep(a + front, r, limits, late);
      AffordablePrefix(a, front, limits, late);
    }
  }

  datatype Used = Used(records: nat, bytes: nat, nodes: nat)

  ghost predicate Spent(u: Used, rs: seq<Record>) {
    u == Used(|rs|, Bytes(rs), Nodes(rs))
  }

  // ---- targets -------------------------------------------------------------------------------------------------

  ghost predicate TargetsOf(targets: Targets, events: seq<Event>) {
    forall s, e :: e in At(targets, s) <==> exists i :: 0 <= i < |events| && events[i].pk == e
                                                        && (s == e || s == events[i].external)
  }

  ghost predicate Distinct(events: seq<Event>) {
    forall i, j | 0 <= i < j < |events| :: events[i].pk != events[j].pk
  }

  method Collect(events: seq<Event>) returns (targets: Targets)
    ensures TargetsOf(targets, events) && (targets == map[] <==> events == [])
  {
    targets := map[];
    var i := 0;
    while i < |events|
      invariant 0 <= i <= |events| && TargetsOf(targets, events[..i]) && (targets == map[] <==> i == 0)
    {
      var e := events[i];
      ghost var before := targets;
      targets := targets[e.pk := At(targets, e.pk) + {e.pk}];
      targets := targets[e.external := At(targets, e.external) + {e.pk}];
      assert e.pk in targets;
      CollectStep(before, targets, events[..i], e);
      assert events[..i] + [e] == events[..i + 1];
      i := i + 1;
    }
    assert events[..i] == events;
  }

  lemma CollectStep(before: Targets, after: Targets, seen: seq<Event>, e: Event)
    requires TargetsOf(before, seen)
    requires forall s, x :: x in At(after, s) <==> x in At(before, s) || (x == e.pk && (s == e.pk || s == e.external))
    ensures TargetsOf(after, seen + [e])
  {
    var all := seen + [e];
    forall s, x ensures x in At(after, s) <==>
        exists i :: 0 <= i < |all| && all[i].pk == x && (s == x || s == all[i].external) {
      if x in At(before, s) {
        var i :| 0 <= i < |seen| && seen[i].pk == x && (s == x || s == seen[i].external);
        assert all[i] == seen[i];
      }
      assert all[|seen|] == e;
      if exists i :: 0 <= i < |all| && all[i].pk == x && (s == x || s == all[i].external) {
        var i :| 0 <= i < |all| && all[i].pk == x && (s == x || s == all[i].external);
        if i < |seen| { assert seen[i].pk == x; }
      }
    }
  }

  // What the walk reports about a document, in terms of the events.
  lemma HitsAreMentions(targets: Targets, events: seq<Event>, j: Json, i: nat)
    requires TargetsOf(targets, events) && Distinct(events) && i < |events|
    ensures Hit(targets, [Decode(j)], events[i].pk) <==> Contains(j, events[i].pk) || Contains(j, events[i].external)
  {
    var e := events[i];
    assert [Decode(j)][0] == Decode(j);
    forall s ensures AnyHolds([Decode(j)], s) <==> Contains(j, s) { DecodeKeepsStrings(j, s); }
    assert forall s :: e.pk in At(targets, s) <==> s == e.pk || s == e.external by {
      forall s ensures e.pk in At(targets, s) <==> s == e.pk || s == e.external {
        if e.pk in At(targets, s) {
          var k :| 0 <= k < |events| && events[k].pk == e.pk && (s == e.pk || s == events[k].external);
        }
      }
    }
    assert e.pk in targets[e.pk] && e.pk in targets[e.external] by {
      assert e.pk in At(targets, e.pk) && e.pk in At(targets, e.external);
    }
    if Hit(targets, [Decode(j)], e.pk) {
      var s :| s in targets && e.pk in targets[s] && AnyHolds([Decode(j)], s);
      assert e.pk in At(targets, s);
    }
    hide TargetsOf, AnyHolds, Contains;
  }

  // ---- one column ------------------------------------------------------------------------------------------------

  function Of(counts: map<string, nat>, e: string): nat { if e in counts then counts[e] else 0 }

  ghost predicate Pks(events: seq<Event>, e: string) { exists i :: 0 <= i < |events| && events[i].pk == e }

  // Counts are exact for every event, and only events have counts.
  ghost predicate Exact(counts: map<string, nat>, records: seq<Record>, events: seq<Event>) {
    && (forall i | 0 <= i < |events| :: Of(counts, events[i].pk) == Count(records, events[i]))
    && (forall e | e in counts :: Pks(events, e) && counts[e] > 0)
  }

  function Unreadable(records: seq<Record>): nat {
    if records == [] then 0 else Unreadable(records[..|records| - 1]) + (if Readable(records[|records| - 1])
                                 then 0 else 1)
  }

  method Tally(counts: map<string, nat>, matches: set<string>) returns (next: map<string, nat>)
    ensures forall e :: Of(next, e) == Of(counts, e) + (if e in matches then 1 else 0)
    ensures forall e :: e in next <==> e in counts || e in matches
    ensures forall e | e in next :: e in matches || next[e] == counts[e]
  {
    next := counts;
    var rest := matches;
    while rest != {}
      invariant rest <= matches
      invariant forall e :: Of(next, e) == Of(counts, e) + (if e in matches && e !in rest then 1 else 0)
      invariant forall e :: e in next <==> e in counts || (e in matches && e !in rest)
      decreases rest
    {
      var e :| e in rest;
      next := next[e := Of(next, e) + 1];
      rest := rest - {e};
    }
  }

  // The matches of one record, or nothing when it is not a readable document.
  method ScanRecord(r: Record, ghost before: seq<Record>, events: seq<Event>, targets: Targets, used: Used,
      limits: Limits, late: Clock)
    returns (matches: set<string>, next: Used, invalid: bool, ok: bool)
    requires TargetsOf(targets, events) && Distinct(events) && Spent(used, before) && Affordable(before, limits, late)
    ensures ok <==> Affordable(before + [r], limits, late)
    ensures ok ==> Spent(next, before + [r]) && (invalid <==> !Readable(r))
    ensures ok ==> forall i | 0 <= i < |events| :: events[i].pk in matches <==> Mentions(r, events[i])
    ensures ok ==> forall e | e in matches :: Pks(events, e)
  {
    AffordableStep(before, r, limits, late);
    matches, invalid := {}, false;
    next := Used(used.records + 1, used.bytes + (if r.cell.Stored? then r.cell.size else 0), used.nodes);
    if next.records > limits.records || next.bytes > limits.bytes || late(next.records, next.nodes) {
      return matches, next, invalid, false;
    }
    if r.cell.Missing? { return matches, next, invalid, true; }
    if r.cell.Numeric? || r.cell.parsed.None? { return matches, next, true, true; }
    var j := r.cell.parsed.value;
    var nodes;
    hide Affordable, Contains, Decode;
    matches, nodes, ok := Walk(Decode(j), targets, next.records, next.nodes, limits.nodes, late);
    next := next.(nodes := nodes);
    forall e | ok && e in matches ensures Pks(events, e) { HitIsEvent(targets, events, [Decode(j)], e); }
    forall i | 0 <= i < |events| ensures Hit(targets, [Decode(j)], events[i].pk) <==>
        Contains(j, events[i].pk) || Contains(j, events[i].external) {
      HitsAreMentions(targets, events, j, i);
    }
    hide Hit;
    if r.owner.Some? { matches := matches - {r.owner.value}; }
  }

  lemma HitIsEvent(targets: Targets, events: seq<Event>, vs: seq<Value>, e: string)
    requires TargetsOf(targets, events) && Hit(targets, vs, e)
    ensures Pks(events, e)
  {
    var s :| s in targets && e in targets[s] && AnyHolds(vs, s);
    assert e in At(targets, s);
  }

  lemma ExactStep(counts: map<string, nat>, next: map<string, nat>, matches: set<string>, records: seq<Record>,
      r: Record, events: seq<Event>)
    requires Exact(counts, records, events)
    requires forall i | 0 <= i < |events| :: events[i].pk in matches <==> Mentions(r, events[i])
    requires forall e | e in matches :: Pks(events, e)
    requires forall e :: Of(next, e) == Of(counts, e) + (if e in matches then 1 else 0)
    requires forall e :: e in next <==> e in counts || e in matches
    ensures Exact(next, records + [r], events)
  {
    forall i | 0 <= i < |events| ensures Of(next, events[i].pk) == Count(records + [r], events[i]) {
      CountSnoc(records, r, events[i]);
    }
    forall e | e in next ensures Pks(events, e) && next[e] > 0 { assert Of(next, e) == next[e]; }
  }

  lemma EmptyExact(events: seq<Event>)
    ensures Exact(map[], [], events)
  {
    forall i | 0 <= i < |events| ensures Count([], events[i]) == 0 {}
  }

  lemma UnreadableSnoc(records: seq<Record>, r: Record)
    ensures Unreadable(records + [r]) == Unreadable(records) + (if Readable(r) then 0 else 1)
  {
    assert (records + [r])[..|records|] == records;
  }

  datatype Progress = Progress(counts: map<string, nat>, invalid: nat, used: Used)

  // The column so far, after the columns before it.
  ghost predicate Scanned(p: Progress, before: seq<Record>, seen: seq<Record>, events: seq<Event>) {
    Spent(p.used, before + seen) && Exact(p.counts, seen, events) && p.invalid == Unreadable(seen)
  }

  method CountRecord(r: Record, p: Progress, ghost before: seq<Record>, ghost seen: seq<Record>, events: seq<Event>,
      targets: Targets, limits: Limits, late: Clock)
    returns (q: Progress, ok: bool)
    requires TargetsOf(targets, events) && Distinct(events) && Scanned(p, before, seen, events)
        && Affordable(before + seen, limits, late)
    ensures ok <==> Affordable(before + (seen + [r]), limits, late)
    ensures ok ==> Scanned(q, before, seen + [r], events)
  {
    assert before + seen + [r] == before + (seen + [r]);
    hide Affordable, Spent, Exact, TargetsOf, Distinct, Mentions, Pks, Readable;
    var matches, used, bad;
    matches, used, bad, ok := ScanRecord(r, before + seen, events, targets, p.used, limits, late);
    q := p.(used := used);
    if ok {
      var counts := Tally(p.counts, matches);
      ExactStep(p.counts, counts, matches, seen, r, events);
      UnreadableSnoc(seen, r);
      q := Progress(counts, if bad then p.invalid + 1 else p.invalid, used);
    }
  }

  method ScanColumn(column: Column, ghost before: seq<Record>, events: seq<Event>, targets: Targets, used: Used,
      limits: Limits, late: Clock)
    returns (p: Progress, ok: bool)
    requires TargetsOf(targets, events) && Distinct(events) && Spent(used, before) && Affordable(before, limits, late)
    ensures ok <==> Affordable(before + column.records, limits, late)
    ensures ok ==> Scanned(p, before, column.records, events)
  {
    var rs := column.records;
    p := Progress(map[], 0, used);
    var i := 0;
    assert before + rs[..0] == before && rs[..0] == [];
    EmptyExact(events);
    hide Affordable, Spent, Exact, TargetsOf, Distinct;
    while i < |rs|
      invariant 0 <= i <= |rs|
      invariant Affordable(before + rs[..i], limits, late) && Scanned(p, before, rs[..i], events)
    {
      assert rs[..i] + [rs[i]] == rs[..i + 1];
      p, ok := CountRecord(rs[i], p, before, rs[..i], events, targets, limits, late);
      if !ok {
        assert before + rs[..i + 1] + rs[i + 1..] == before + rs;
        if Affordable(before + rs, limits, late) { AffordablePrefix(before + rs[..i + 1], rs[i + 1..], limits, late); }
        return;
      }
      i := i + 1;
    }
    assert rs[..i] == rs;
    ok := true;
  }

  // ---- the whole scan ----------------------------------------------------------------------------------------------

  datatype Dependency = Dependency(table: string, column: string, count: nat)
  datatype Issue = Incomplete(table: string, column: string) | UnreadableRecords(table: string, column: string,
      records: nat)

  function Flat(columns: seq<Column>): seq<Record> {
    if columns == [] then [] else Flat(columns[..|columns| - 1]) + columns[|columns| - 1].records
  }

  // What must be reported for one event: the columns that mention it, in order, with exact counts.
  ghost function Dependencies(columns: seq<Column>, e: Event): seq<Dependency> {
    if columns == [] then []
    else
      var c := columns[|columns| - 1];
      Dependencies(columns[..|columns| - 1], e) + (if Count(c.records, e) > 0
          then [Dependency(c.table, c.name, Count(c.records, e))] else [])
  }

  function Problems(columns: seq<Column>): seq<Issue> {
    if columns == [] then []
    else
      var c := columns[|columns| - 1];
      Problems(columns[..|columns| - 1]) + (if Unreadable(c.records) > 0
          then [UnreadableRecords(c.table, c.name, Unreadable(c.records))] else [])
  }

  type Report = map<string, seq<Dependency>>

  ghost predicate Reports(found: Report, columns: seq<Column>, events: seq<Event>) {
    forall i | 0 <= i < |events| :: events[i].pk in found && found[events[i].pk] == Dependencies(columns, events[i])
  }

  // The budget ran out in column c.
  ghost predicate CutIn(columns: seq<Column>, c: nat, events: seq<Event>, limits: Limits, late: Clock, found: Report,
      issues: seq<Issue>) {
    && c < |columns| && Affordable(Flat(columns[..c]), limits, late) && !Affordable(Flat(columns[..c + 1]), limits,
        late)
    && Reports(found, columns[..c], events)
        && issues == Problems(columns[..c]) + [Incomplete(columns[c].table, columns[c].name)]
  }

  method Append(found: Report, counts: map<string, nat>, column: Column, ghost before: seq<Column>,
      ghost events: seq<Event>) returns (next: Report)
    requires Distinct(events) && Reports(found, before, events) && Exact(counts, column.records, events)
    ensures Reports(next, before + [column], events)
  {
    next := found;
    var rest := counts.Keys;
    while rest != {}
      invariant rest <= counts.Keys && next.Keys == found.Keys
      invariant forall e | e in found ::
                  next[e] == found[e] + (if e in counts && e !in rest
                      then [Dependency(column.table, column.name, counts[e])] else [])
      decreases rest
    {
      var e :| e in rest;
      assert e in found by { assert Pks(events, e); }
      next := next[e := next[e] + [Dependency(column.table, column.name, counts[e])]];
      rest := rest - {e};
    }
    hide Count;
    forall i | 0 <= i < |events| ensures events[i].pk in next && next[events[i].pk] ==
        Dependencies(before + [column], events[i]) {
      DependenciesSnoc(before, column, events[i]);
      hide Dependencies;
      assert Of(counts, events[i].pk) == Count(column.records, events[i]);
    }
  }

  lemma DependenciesSnoc(before: seq<Column>, c: Column, e: Event)
    ensures Dependencies(before + [c], e) ==
              Dependencies(before, e) + (if Count(c.records, e) > 0
                  then [Dependency(c.table, c.name, Count(c.records, e))] else [])
  {
    assert (before + [c])[..|before|] == before;
  }

  /** The scan completes exactly when the whole input is within budget. It then reports, for every
      event and every column, the exact number of other rows that mention the event, and an issue
      for every column with unreadable records. Otherwise it says so in its last issue, and what it
      reports is exact for the columns before the one it was cut short in. */
  method Scan(columns: seq<Column>, events: seq<Event>, limits: Limits, late: Clock) returns (found: Report,
      issues: seq<Issue>)
    requires Distinct(events)
    ensures events != [] && Affordable(Flat(columns), limits, late) ==>
        Reports(found, columns, events) && issues == Problems(columns)
    ensures events != [] && !Affordable(Flat(columns), limits, late) ==>
        exists c :: CutIn(columns, c, events, limits, late, found, issues)
    ensures events == [] ==> found == map[] && issues == []
  {
    found := map i | 0 <= i < |events| :: events[i].pk := [];
    issues := [];
    var targets := Collect(events);
    if targets == map[] { return; }
    var used := Used(0, 0, 0);
    var c := 0;
    assert columns[..0] == [];
    assert Reports(found, [], events);
    hide Affordable, Exact, Reports, Spent, TargetsOf, Distinct, Flat, Problems;
    assert Affordable(Flat([]), limits, late) && Spent(used, Flat([])) && Problems([]) == [] by {
      NothingScanned(limits, late);
    }
    while c < |columns|
      invariant 0 <= c <= |columns|
      invariant Affordable(Flat(columns[..c]), limits, late) && Spent(used, Flat(columns[..c]))
      invariant Reports(found, columns[..c], events) && issues == Problems(columns[..c])
    {
      SnocColumn(columns, c);
      var p, ok := ScanColumn(columns[c], Flat(columns[..c]), events, targets, used, limits, late);
      if !ok {
        issues := issues + [Incomplete(columns[c].table, columns[c].name)];
        CutShort(columns, c + 1, limits, late);
        assert CutIn(columns, c, events, limits, late, found, issues);
        return;
      }
      found := Append(found, p.counts, columns[c], columns[..c], events);
      if p.invalid > 0 { issues := issues + [UnreadableRecords(columns[c].table, columns[c].name, p.invalid)]; }
      used := p.used;
      c := c + 1;
    }
    assert columns[..c] == columns;
  }

  lemma NothingScanned(limits: Limits, late: Clock)
    ensures Affordable(Flat([]), limits, late) && Spent(Used(0, 0, 0), Flat([])) && Problems([]) == []
  {}

  lemma SnocColumn(columns: seq<Column>, c: nat)
    requires c < |columns|
    ensures columns[..c] + [columns[c]] == columns[..c + 1]
    ensures Flat(columns[..c + 1]) == Flat(columns[..c]) + columns[c].records
    ensures Problems(columns[..c + 1]) == Problems(columns[..c]) +
              (if Unreadable(columns[c].records) > 0
                  then [UnreadableRecords(columns[c].table, columns[c].name, Unreadable(columns[c].records))] else [])
  {
    assert columns[..c + 1][..c] == columns[..c];
  }

  // Records that cannot be afforded are not afforded within more of them.
  lemma CutShort(columns: seq<Column>, c: nat, limits: Limits, late: Clock)
    requires c <= |columns| && !Affordable(Flat(columns[..c]), limits, late)
    ensures !Affordable(Flat(columns), limits, late)
  {
    FlatPrefix(columns, c);
    if Affordable(Flat(columns), limits, late) {
      AffordablePrefix(Flat(columns[..c]), Flat(columns)[|Flat(columns[..c])|..], limits, late);
    }
  }

  lemma {:induction false} FlatPrefix(columns: seq<Column>, c: nat)
    requires c <= |columns|
    ensures |Flat(columns[..c])| <= |Flat(columns)| && Flat(columns)[..|Flat(columns[..c])|] == Flat(columns[..c])
    ensures Flat(columns) == Flat(columns[..c]) + Flat(columns)[|Flat(columns[..c])|..]
    decreases |columns|
  {
    if c == |columns| {
      assert columns[..c] == columns;
    } else {
      var front := columns[..|columns| - 1];
      FlatPrefix(front, c);
      assert front[..c] == columns[..c];
    }
  }

  /** An empty issue list is exactly a complete scan of readable records. */
  lemma {:induction false} NoProblemsMeansReadable(columns: seq<Column>)
    ensures Problems(columns) == [] <==>
        forall i, k | 0 <= i < |columns| && 0 <= k < |columns[i].records| :: Readable(columns[i].records[k])
  {
    if columns != [] {
      var front, c := columns[..|columns| - 1], columns[|columns| - 1];
      NoProblemsMeansReadable(front);
      UnreadableCounts(c.records);
      assert forall i | 0 <= i < |front| :: front[i] == columns[i];
      assert (forall i, k | 0 <= i < |columns| && 0 <= k < |columns[i].records| :: Readable(columns[i].records[k])) <==>
             (forall i, k | 0 <= i < |front| && 0 <= k < |front[i].records| :: Readable(front[i].records[k])) &&
             (forall k | 0 <= k < |c.records| :: Readable(c.records[k]));
    }
  }

  lemma {:induction false} UnreadableCounts(records: seq<Record>)
    ensures Unreadable(records) == |set k | 0 <= k < |records| && !Readable(records[k])|
    ensures Unreadable(records) == 0 <==> forall k | 0 <= k < |records| :: Readable(records[k])
  {
    hide Readable;
    var bad := set k | 0 <= k < |records| && !Readable(records[k]);
    if records != [] {
      var n := |records| - 1;
      var front := records[..n];
      UnreadableCounts(front);
      var fewer := set k | 0 <= k < |front| && !Readable(front[k]);
      assert bad == if Readable(records[n]) then fewer else fewer + {n};
    }
    if !forall k | 0 <= k < |records| :: Readable(records[k]) {
      var k :| 0 <= k < |records| && !Readable(records[k]);
      assert k in bad;
    }
  }
}
