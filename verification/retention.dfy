/**
 Body retention: a preview lists what still refers to an old event, and an explicit, all-or-nothing
 apply erases the bodies of selected events inside one transaction.

 Event rows are kept in key order, so a page cursor is a position. The digest of a preview item is
 injective: it is modelled by what it covers.
 */
module Retention {
  import opened Options
  import opened JsonScan

  datatype Status = New | Claimed | Processed | Ignored | Dead
  datatype EventRow = EventRow(
    pk: string, external: string, received: int, status: Status, leaseOwner: Option<string>,
        leaseExpires: Option<string>,
    artifact: Option<string>, payload: Cell, lastError: Option<string>)
  datatype Receipt = Receipt(digest: Snapshot, payload: Cell, lastError: Option<string>, days: nat, actor: string)

  // A column that may name an event, with its values row by row.
  datatype Reference = Reference(table: string, column: string, values: seq<Option<string>>)

  // Foreign keys to events, source registries by stable id, and the JSON columns besides the payloads.
  datatype Others = Others(keys: seq<Reference>, sources: seq<Reference>, columns: seq<Column>)
  datatype Db = Db(events: seq<EventRow>, receipts: map<string, Receipt>, others: Others)

  datatype Snapshot = Snapshot(row: EventRow, dependencies: seq<Dependency>, days: nat)
  datatype Blocker = AlreadyCleared | Referenced | ScanIncomplete | Nonterminal | LeasePresent | ArtifactPresent
  datatype Item = Item(pk: string, digest: Snapshot, blockers: seq<Blocker>)

  predicate Truthy(o: Option<string>) { o.Some? && o.value != "" }

  ghost predicate UniqueKeys(events: seq<EventRow>) {
    forall i, j | 0 <= i < j < |events| :: events[i].pk != events[j].pk
  }

  // ---- the page --------------------------------------------------------------------------------------

  function Page(events: seq<EventRow>, from: nat, cutoff: int, limit: nat): (page: seq<EventRow>)
    ensures |page| <= limit
    ensures forall r | r in page :: r.received < cutoff && exists k :: from <= k < |events| && events[k] == r
    ensures UniqueKeys(events) ==> UniqueKeys(page)
    decreases |events| - from
  {
    if from >= |events| || limit == 0 then []
    else if events[from].received < cutoff then [events[from]] + Page(events, from + 1, cutoff, limit - 1)
    else Page(events, from + 1, cutoff, limit)
  }

  // All rows older than the cutoff, from a position on.
  function Eligible(events: seq<EventRow>, from: nat, cutoff: int): seq<EventRow>
    decreases |events| - from
  {
    if from >= |events| then []
    else (if events[from].received < cutoff then [events[from]] else []) + Eligible(events, from + 1, cutoff)
  }

  // The position after the last row of the page, which is the next cursor.
  function PageEnd(events: seq<EventRow>, from: nat, cutoff: int, limit: nat): (end: nat)
    requires from <= |events|
    ensures from <= end <= |events|
    decreases |events| - from
  {
    if from == |events| || limit == 0 then from
    else PageEnd(events, from + 1, cutoff, if events[from].received < cutoff then limit - 1 else limit)
  }

  /** A page and the pages after its cursor are all eligible rows, in order and without overlap. */
  lemma {:induction false} PagesCoverEverything(events: seq<EventRow>, from: nat, cutoff: int, limit: nat)
    requires from <= |events|
    ensures Page(events, from, cutoff, limit) + Eligible(events, PageEnd(events, from, cutoff, limit), cutoff) ==
        Eligible(events, from, cutoff)
    ensures |Page(events, from, cutoff, limit)| < limit ==>
        Page(events, from, cutoff, limit) == Eligible(events, from, cutoff)
    decreases |events| - from
  {
    hide UniqueKeys;
    if from < |events| && limit > 0 {
      var left := if events[from].received < cutoff then limit - 1 else limit;
      PagesCoverEverything(events, from + 1, cutoff, left);
      PageStep(events, from, cutoff, limit);
      hide Page, Eligible, PageEnd;
      var first := if events[from].received < cutoff then [events[from]] else [];
      Regroup(first, Page(events, from + 1, cutoff, left),
          Eligible(events, PageEnd(events, from, cutoff, limit), cutoff));
    } else {
      assert Page(events, from, cutoff, limit) == [];
      assert from == |events| ==> Eligible(events, from, cutoff) == [];
      assert PageEnd(events, from, cutoff, limit) == from;
      hide Page, Eligible, PageEnd;
    }
  }

  lemma PageStep(events: seq<EventRow>, from: nat, cutoff: int, limit: nat)
    requires from < |events| && limit > 0
    ensures var aged := events[from].received < cutoff;
            var left, first := if aged then limit - 1 else limit, if aged then [events[from]] else [];
            && Page(events, from, cutoff, limit) == first + Page(events, from + 1, cutoff, left)
            && Eligible(events, from, cutoff) == first + Eligible(events, from + 1, cutoff)
            && PageEnd(events, from, cutoff, limit) == PageEnd(events, from + 1, cutoff, left)
  {
    hide UniqueKeys;
  }

  lemma Regroup(a: seq<EventRow>, b: seq<EventRow>, c: seq<EventRow>)
    ensures (a + b) + c == a + (b + c)
  {}

  function EventOf(r: EventRow): Event { Event(r.pk, r.external) }

  function EventsOf(rows: seq<EventRow>): seq<Event> { seq(|rows|, i requires 0 <= i < |rows| => EventOf(rows[i])) }

  // The payload column of the events themselves; each record is owned by its event.
  function Payloads(events: seq<EventRow>): Column {
    Column("inbound_events", "payload_json",
        seq(|events|, i requires 0 <= i < |events| => Record(Some(events[i].pk), events[i].payload)))
  }

  function Columns(db: Db): seq<Column> { [Payloads(db.events)] + db.others.columns }

  // ---- dependencies -------------------------------------------------------------------------------------

  function Occurrences(values: seq<Option<string>>, wanted: set<string>): nat {
    if values == [] then 0
    else Occurrences(values[..|values| - 1], wanted) + (if values[|values| - 1].Some?
         && values[|values| - 1].value in wanted then 1 else 0)
  }

  function Referring(refs: seq<Reference>, wanted: set<string>): seq<Dependency> {
    if refs == [] then []
    else
      var r := refs[|refs| - 1];
      var n := Occurrences(r.values, wanted);
      Referring(refs[..|refs| - 1], wanted) + (if n > 0 then [Dependency(r.table, r.column, n)] else [])
  }

  ghost function DependenciesOf(db: Db, r: EventRow): seq<Dependency> {
    Sort(Referring(db.others.keys, {r.pk}) + Referring(db.others.sources,
        {r.pk, r.external}) + Dependencies(Columns(db), EventOf(r)))
  }

  // Code points in order, a prefix first.
  predicate TextLe(a: string, b: string) {
    a == [] || (b != [] && (a[0] < b[0] || (a[0] == b[0] && TextLe(a[1..], b[1..]))))
  }

  // By table, then column.
  predicate Before(x: Dependency, y: Dependency) {
    if x.table == y.table then TextLe(x.column, y.column) else TextLe(x.table, y.table)
  }

  // After everything that is not behind it, so the sort is stable.
  function Insert(r: seq<Dependency>, x: Dependency): (s: seq<Dependency>)
    ensures |s| == |r| + 1 && multiset(s) == multiset(r) + multiset{x}
  {
    if r == [] then [x]
    else
      assert r == r[..|r| - 1] + [r[|r| - 1]];
      if Before(r[|r| - 1], x) then r + [x] else Insert(r[..|r| - 1], x) + [r[|r| - 1]]
  }

  function Sort(xs: seq<Dependency>): (s: seq<Dependency>)
    ensures |s| == |xs| && multiset(s) == multiset(xs)
  {
    if xs == [] then [] else assert xs == xs[..|xs| - 1] + [xs[|xs| - 1]]; Insert(Sort(xs[..|xs| - 1]), xs[|xs| - 1])
  }

  predicate Ordered(s: seq<Dependency>) { forall i | 0 <= i < |s| - 1 :: Before(s[i], s[i + 1]) }

  lemma {:induction false} TextTotal(a: string, b: string)
    ensures TextLe(a, b) || TextLe(b, a)
  {
    if a != [] && b != [] && a[0] == b[0] { TextTotal(a[1..], b[1..]); }
  }

  lemma {:induction false} InsertOrders(r: seq<Dependency>, x: Dependency)
    requires Ordered(r)
    ensures Ordered(Insert(r, x))
    ensures var last := Insert(r, x)[|r|]; last == x || (r != [] && last == r[|r| - 1])
  {
    if r != [] && !Before(r[|r| - 1], x) {
      var front, z := r[..|r| - 1], r[|r| - 1];
      InsertOrders(front, x);
      TextTotal(z.table, x.table);
      TextTotal(z.column, x.column);
      assert Before(x, z);
      hide Before;
      assert Ordered(Insert(front, x) + [z]);
    }
  }

  /** The listed dependencies are in order and a permutation of what was found. */
  lemma {:induction false} SortOrders(xs: seq<Dependency>)
    ensures Ordered(Sort(xs)) && multiset(Sort(xs)) == multiset(xs)
  {
    if xs != [] {
      SortOrders(xs[..|xs| - 1]);
      InsertOrders(Sort(xs[..|xs| - 1]), xs[|xs| - 1]);
    }
  }

  function Blockers(cleared: bool, referenced: bool, incomplete: bool, r: EventRow): seq<Blocker> {
    (if cleared then [AlreadyCleared] else []) +
    (if referenced then [Referenced] else []) +
    (if incomplete then [ScanIncomplete] else []) +
    (if r.status.Processed? || r.status.Ignored? then [] else [Nonterminal]) +
    (if Truthy(r.leaseOwner) || Truthy(r.leaseExpires) then [LeasePresent] else []) +
    (if Truthy(r.artifact) then [ArtifactPresent] else [])
  }

  // ---- what erasing is allowed to rely on, in plain terms ----------------------------------------------------

  ghost predicate Names(refs: seq<Reference>, s: string) {
    exists i, k :: 0 <= i < |refs| && 0 <= k < |refs[i].values| && refs[i].values[k] == Some(s)
  }

  ghost predicate MentionedInJson(db: Db, r: EventRow) {
    exists c, k :: 0 <= c < |Columns(db)| && 0 <= k < |Columns(db)[c].records|
                   && Mentions(Columns(db)[c].records[k], EventOf(r))
  }

  // No foreign key, source registry row or foreign JSON value refers to the event.
  ghost predicate Unreferenced(db: Db, r: EventRow) {
    !Names(db.others.keys, r.pk) && !Names(db.others.sources, r.pk) && !Names(db.others.sources, r.external)
        && !MentionedInJson(db, r)
  }

  predicate Inactive(r: EventRow) {
    (r.status.Processed? || r.status.Ignored?) && !Truthy(r.leaseOwner) && !Truthy(r.leaseExpires)
        && !Truthy(r.artifact)
  }

  lemma {:induction false} NoOccurrences(values: seq<Option<string>>, wanted: set<string>)
    ensures Occurrences(values, wanted) == 0 <==>
        forall k | 0 <= k < |values| :: !(values[k].Some? && values[k].value in wanted)
  {
    if values != [] { NoOccurrences(values[..|values| - 1], wanted); }
  }

  lemma {:induction false} NoReferring(refs: seq<Reference>, wanted: set<string>)
    ensures Referring(refs, wanted) == [] <==>
              forall i, k | 0 <= i < |refs| && 0 <= k < |refs[i].values| ::
                  !(refs[i].values[k].Some? && refs[i].values[k].value in wanted)
  {
    if refs != [] {
      var front, r := refs[..|refs| - 1], refs[|refs| - 1];
      NoReferring(front, wanted);
      NoOccurrences(r.values, wanted);
      assert forall i | 0 <= i < |front| :: front[i] == refs[i];
      assert (forall i, k | 0 <= i < |refs| && 0 <= k < |refs[i].values| ::
          !(refs[i].values[k].Some? && refs[i].values[k].value in wanted)) <==>
             (forall i, k | 0 <= i < |front| && 0 <= k < |front[i].values| ::
                 !(front[i].values[k].Some? && front[i].values[k].value in wanted)) &&
             (forall k | 0 <= k < |r.values| :: !(r.values[k].Some? && r.values[k].value in wanted));
    }
  }

  lemma NoCount(records: seq<Record>, e: Event)
    ensures Count(records, e) == 0 <==> forall k | 0 <= k < |records| :: !Mentions(records[k], e)
  {
    var hits := set i | 0 <= i < |records| && Mentions(records[i], e);
    assert forall k | 0 <= k < |records| && Mentions(records[k], e) :: k in hits;
    assert hits != {} ==> exists k :: k in hits;
  }

  lemma {:induction false} NoDependencies(columns: seq<Column>, e: Event)
    ensures Dependencies(columns, e) == [] <==>
              forall c, k | 0 <= c < |columns| && 0 <= k < |columns[c].records| :: !Mentions(columns[c].records[k], e)
  {
    if columns != [] {
      var front, c := columns[..|columns| - 1], columns[|columns| - 1];
      NoDependencies(front, e);
      NoCount(c.records, e);
      assert forall i | 0 <= i < |front| :: front[i] == columns[i];
      assert (forall i, k | 0 <= i < |columns| && 0 <= k < |columns[i].records| ::
          !Mentions(columns[i].records[k], e)) <==>
             (forall i, k | 0 <= i < |front| && 0 <= k < |front[i].records| :: !Mentions(front[i].records[k], e)) &&
             (forall k | 0 <= k < |c.records| :: !Mentions(c.records[k], e));
    }
  }

  /** The list of dependencies is empty exactly when nothing refers to the event. */
  lemma DependenciesAreExact(db: Db, r: EventRow)
    ensures DependenciesOf(db, r) == [] <==> Unreferenced(db, r)
  {
    NoReferring(db.others.keys, {r.pk});
    NoReferring(db.others.sources, {r.pk, r.external});
    NoDependencies(Columns(db), EventOf(r));
    hide Referring, Dependencies, Sort;
  }

  /** An item has no blocker exactly when its event is inactive, unreferenced and not cleared before. */
  lemma UnblockedMeansErasable(db: Db, r: EventRow, incomplete: bool)
    ensures Blockers(r.pk in db.receipts, DependenciesOf(db, r) != [], incomplete, r) == [] <==>
              r.pk !in db.receipts && Unreferenced(db, r) && !incomplete && Inactive(r)
  {
    DependenciesAreExact(db, r);
    hide DependenciesOf, Unreferenced;
  }

  // ---- preview --------------------------------------------------------------------------------------------------

  datatype Query = Query(days: nat, from: nat, limit: nat, now: int)

  predicate ValidQuery(q: Query) { 1 <= q.days <= 3650 && 1 <= q.limit <= 50 }

  function Cutoff(q: Query): int { q.now - q.days * 86400 }

  function PageOf(db: Db, q: Query): seq<EventRow> { Page(db.events, q.from, Cutoff(q), q.limit) }

  // The scan of every JSON column finishes within budget and finds only readable documents.
  ghost predicate ScanClean(db: Db, q: Query, limits: Limits, late: Clock) {
    PageOf(db, q) == [] || (Affordable(Flat(Columns(db)), limits, late) && Problems(Columns(db)) == [])
  }

  ghost function ItemOf(db: Db, q: Query, r: EventRow): Item {
    Item(r.pk, Snapshot(r, DependenciesOf(db, r), q.days),
        Blockers(r.pk in db.receipts, DependenciesOf(db, r) != [], false, r))
  }

  method CollectReferring(refs: seq<Reference>, wanted: set<string>) returns (found: seq<Dependency>)
    ensures found == Referring(refs, wanted)
  {
    found := [];
    var i := 0;
    while i < |refs|
      invariant 0 <= i <= |refs| && found == Referring(refs[..i], wanted)
    {
      assert refs[..i + 1][..i] == refs[..i];
      var n := Occurrences(refs[i].values, wanted);
      if n > 0 { found := found + [Dependency(refs[i].table, refs[i].column, n)]; }
      i := i + 1;
    }
    assert refs[..i] == refs;
  }

  method MakeItem(db: Db, q: Query, r: EventRow, json: seq<Dependency>) returns (item: Item)
    requires json == Dependencies(Columns(db), EventOf(r))
    ensures item == ItemOf(db, q, r)
  {
    var keys := CollectReferring(db.others.keys, {r.pk});
    var sources := CollectReferring(db.others.sources, {r.pk, r.external});
    var dependencies := Sort(keys + sources + json);
    hide Dependencies, Columns, Referring, Blockers, Sort;
    assert dependencies == DependenciesOf(db, r);
    item := Item(r.pk, Snapshot(r, dependencies, q.days), Blockers(r.pk in db.receipts, dependencies != [], false, r));
  }

  /** The preview: `clean` exactly when the scan is complete and readable, and then one exact item
      for every row of the page. */
  method Preview(db: Db, q: Query, limits: Limits, late: Clock) returns (items: seq<Item>, clean: bool)
    requires UniqueKeys(db.events)
    ensures clean <==> ScanClean(db, q, limits, late)
    ensures clean ==> |items| == |PageOf(db, q)| && forall i | 0 <= i < |items| ::
                      items[i] == ItemOf(db, q, PageOf(db, q)[i])
  {
    hide ScanClean, Columns, ItemOf, PageOf, Reports, UniqueKeys, Dependencies;
    var page := PageOf(db, q);
    var found;
    items := [];
    found, clean := ScanPage(db, q, limits, late);
    if !clean { return; }
    var i := 0;
    while i < |page|
      invariant 0 <= i <= |page| && |items| == i
      invariant forall k | 0 <= k < i :: items[k] == ItemOf(db, q, page[k])
    {
      ReportedAt(found, Columns(db), EventsOf(page), i);
      var item := MakeItem(db, q, page[i], found[page[i].pk]);
      items := items + [item];
      i := i + 1;
    }
  }

  method ScanPage(db: Db, q: Query, limits: Limits, late: Clock) returns (found: Report, clean: bool)
    requires UniqueKeys(db.events)
    ensures clean <==> ScanClean(db, q, limits, late)
    ensures clean ==> Reports(found, Columns(db), EventsOf(PageOf(db, q)))
  {
    var events := EventsOf(PageOf(db, q));
    hide Page, Columns, Affordable, Reports, Problems;
    var issues;
    found, issues := Scan(Columns(db), events, limits, late);
    clean := issues == [];
    assert events == [] ==> Reports(found, Columns(db), events) by { NothingToReport(found, Columns(db)); }
  }

  lemma NothingToReport(found: Report, columns: seq<Column>)
    ensures Reports(found, columns, [])
  {}

  lemma ReportedAt(found: Report, columns: seq<Column>, events: seq<Event>, i: nat)
    requires Reports(found, columns, events) && i < |events|
    ensures events[i].pk in found && found[events[i].pk] == Dependencies(columns, events[i])
  {}

  // ---- apply ------------------------------------------------------------------------------------------------------

  datatype Request = Request(query: Query, expected: map<string, Snapshot>, actor: string, guard: bool)

  predicate ValidRequest(a: Request) {
    && ValidQuery(a.query) && 1 <= |a.expected| <= 50 && a.guard
    && |a.actor| <= 200 && exists i :: 0 <= i < |a.actor| && a.actor[i] !in {' ', '\t', '\n', '\r'}
  }

  // The row is on the current page, unchanged since the preview it was selected from, and erasable.
  ghost predicate Selectable(db: Db, a: Request, pk: string)
    requires pk in a.expected
  {
    exists i :: 0 <= i < |PageOf(db, a.query)| &&
      var r := PageOf(db, a.query)[i];
      r.pk == pk && Snapshot(r, DependenciesOf(db, r), a.query.days) == a.expected[pk] && r.pk !in db.receipts
          && Unreferenced(db, r) && Inactive(r)
  }

  ghost predicate Applies(db: Db, a: Request, limits: Limits, late: Clock) {
    ValidRequest(a) && ScanClean(db, a.query, limits, late) && forall pk | pk in a.expected :: Selectable(db, a, pk)
  }

  // The erased row keeps its identity.
  function Erased(r: EventRow): EventRow {
    r.(payload := Stored(2, Some(Object([]))), lastError := None)
  }

  function EraseAll(events: seq<EventRow>, selected: set<string>): seq<EventRow> {
    seq(|events|, i requires 0 <= i < |events| => if events[i].pk in selected then Erased(events[i]) else events[i])
  }

  function ReceiptOf(r: EventRow, a: Request): Receipt
    requires r.pk in a.expected
  {
    Receipt(a.expected[r.pk], r.payload, r.lastError, a.query.days, a.actor)
  }

  // Receipts are added for the selected events, and for nothing else.
  ghost predicate Receipted(before: Db, after: map<string, Receipt>, a: Request, selected: set<string>)
    requires selected <= a.expected.Keys
  {
    && after.Keys == before.receipts.Keys + selected
    && (forall pk | pk in before.receipts && pk !in selected :: after[pk] == before.receipts[pk])
    && (forall pk | pk in selected ::
        after[pk].digest == a.expected[pk] && after[pk].actor == a.actor && after[pk].days == a.query.days)
    && (forall i | 0 <= i < |before.events| && before.events[i].pk in selected ::
        after[before.events[i].pk] == ReceiptOf(before.events[i], a))
  }

  /** What a clearing leaves, column by column: each selected row holds the empty object, two characters
      long, and no error, and keeps the rest; every other row stays. */
  ghost predicate BodiesEmptied(before: seq<EventRow>, after: seq<EventRow>, selected: set<string>) {
    && |after| == |before|
    && (forall i | 0 <= i < |before| ::
          var r := before[i];
          after[i] ==
            if r.pk !in selected then r
            else EventRow(r.pk, r.external, r.received, r.status, r.leaseOwner, r.leaseExpires, r.artifact,
                          Stored(2, Some(Object([]))), None))
  }

  // Each selected event has one receipt of what it held; the earlier ones stay.
  ghost predicate ReceiptsAdded(before: Db, after: map<string, Receipt>, a: Request) {
    && after.Keys == before.receipts.Keys + a.expected.Keys
    && (forall pk | pk in before.receipts :: after[pk] == before.receipts[pk])
    && (forall pk | pk in a.expected :: Attests(before, a, pk, after[pk]))
  }

  ghost predicate Attests(db: Db, a: Request, pk: string, receipt: Receipt)
    requires pk in a.expected
  {
    exists i ::
      && 0 <= i < |db.events| && db.events[i].pk == pk
      && receipt == Receipt(a.expected[pk], db.events[i].payload, db.events[i].lastError, a.query.days, a.actor)
  }

  ghost predicate Emptied(before: Db, after: Db, a: Request) {
    && BodiesEmptied(before.events, after.events, a.expected.Keys)
    && ReceiptsAdded(before, after.receipts, a) && after.others == before.others
  }

  lemma EraseAllEmpties(events: seq<EventRow>, selected: set<string>)
    ensures BodiesEmptied(events, EraseAll(events, selected), selected)
  {}

  lemma ReceiptWritten(db: Db, a: Request, pk: string)
    requires pk in a.expected && Selectable(db, a, pk)
    ensures Attests(db, a, pk, NewReceipt(db, a, pk))
  {
    SelectedExists(db, a, pk);
    hide Selectable;
  }

  lemma ReceiptsWritten(db: Db, a: Request)
    requires forall pk | pk in a.expected :: pk !in db.receipts && Attests(db, a, pk, NewReceipt(db, a, pk))
    ensures ReceiptsAdded(db, AfterClear(db, a).receipts, a)
  {
    hide Attests, NewReceipt, EraseAll;
  }

  /** A request that applies empties the rows it selected. */
  lemma ClearingEmpties(db: Db, a: Request, limits: Limits, late: Clock)
    requires Applies(db, a, limits, late)
    ensures Emptied(db, AfterClear(db, a), a)
  {
    hide EraseAll, BodiesEmptied, ReceiptsAdded, Attests, NewReceipt, ValidRequest, ScanClean, Selectable;
    EraseAllEmpties(db.events, a.expected.Keys);
    forall pk | pk in a.expected ensures pk !in db.receipts && Attests(db, a, pk, NewReceipt(db, a, pk)) {
      assert Selectable(db, a, pk);
      ReceiptWritten(db, a, pk);
      SelectionIsFresh(db, a, limits, late, pk);
    }
    ReceiptsWritten(db, a);
  }

  datatype Outcome = Rejected | Cleared(count: nat)

  class Store {
    var events: seq<EventRow>
    var receipts: map<string, Receipt>
    var others: Others

    ghost function Tables(): Db
      reads this
    {
      Db(events, receipts, others)
    }

    constructor (events: seq<EventRow>, others: Others)
      ensures Tables() == Db(events, map[], others)
    {
      this.events, this.receipts, this.others := events, map[], others;
    }

    method FindItem(items: seq<Item>, pk: string) returns (at: Option<nat>)
      ensures at.Some? ==> at.value < |items| && items[at.value].pk == pk
      ensures at.None? ==> forall i | 0 <= i < |items| :: items[i].pk != pk
    {
      var i := 0;
      while i < |items|
        invariant 0 <= i <= |items| && forall k | 0 <= k < i :: items[k].pk != pk
      {
        if items[i].pk == pk { return Some(i); }
        i := i + 1;
      }
      return None;
    }

    // Every selected event is on the page, unchanged and unblocked.
    method Validate(a: Request, items: seq<Item>) returns (ok: bool)
      requires UniqueKeys(events)
      requires |items| == |PageOf(Tables(), a.query)| && forall i | 0 <= i < |items| ::
          items[i] == ItemOf(Tables(), a.query, PageOf(Tables(), a.query)[i])
      ensures ok <==> forall pk | pk in a.expected :: Selectable(Tables(), a, pk)
    {
      var rest := a.expected.Keys;
      while rest != {}
        invariant rest <= a.expected.Keys
        invariant forall pk | pk in a.expected && pk !in rest :: Selectable(Tables(), a, pk)
        decreases rest
      {
        var pk :| pk in rest;
        var at := FindItem(items, pk);
        ItemDecides(Tables(), a, items, pk, at);
        if at.None? || items[at.value].digest != a.expected[pk] || items[at.value].blockers != [] { return false; }
        rest := rest - {pk};
      }
      return true;
    }

    /** All or nothing: the request is applied exactly when every selected event is on the current
        page, unchanged since its preview, terminal, unleased, without artifact, unreferenced and
        never cleared before, and the scan is complete; otherwise no row changes. */
    method ClearPage(a: Request, limits: Limits, late: Clock) returns (r: Outcome)
      requires UniqueKeys(events)
      modifies this`events, this`receipts
      ensures r.Cleared? <==> Applies(old(Tables()), a, limits, late)
      ensures r.Rejected? ==> Tables() == old(Tables())
      ensures r.Cleared? ==> r.count == |a.expected| && Emptied(old(Tables()), Tables(), a)
      ensures r.Cleared? ==> Tables() == AfterClear(old(Tables()), a)
    {
      hide Emptied, AfterClear, Selectable, ScanClean, ItemOf, PageOf, EraseAll, Receipted, UniqueKeys;
      if !ValidRequest(a) { return Rejected; }
      hide ValidRequest;
      var items, clean := Preview(Db(events, receipts, others), a.query, limits, late);
      if !clean { return Rejected; }
      var ok := Validate(a, items);
      if !ok { return Rejected; }
      ApplySelection(a);
      ReceiptedIsAfterClear(old(Tables()), receipts, a);
      EventsAfterClear(old(Tables()), a);
      ClearingEmpties(old(Tables()), a, limits, late);
      return Cleared(|a.expected|);
    }

    method ApplySelection(a: Request)
      requires UniqueKeys(events) && forall pk | pk in a.expected :: Selectable(Tables(), a, pk)
      modifies this`events, this`receipts
      ensures events == EraseAll(old(events), a.expected.Keys)
      ensures BodiesEmptied(old(events), events, a.expected.Keys)
      ensures Receipted(old(Tables()), receipts, a, a.expected.Keys)
    {
      var rest := a.expected.Keys;
      hide Selectable, BodiesEmptied;
      assert EraseAll(events, {}) == events;
      while rest != {}
        invariant rest <= a.expected.Keys
        invariant events == EraseAll(old(events), a.expected.Keys - rest)
        invariant Receipted(old(Tables()), receipts, a, a.expected.Keys - rest)
        decreases rest
      {
        var pk :| pk in rest;
        var at := FindEvent(pk);
        assert at < |events| && events[at].pk == pk by {
          SelectedExists(old(Tables()), a, pk);
          var k :| 0 <= k < |old(events)| && old(events)[k].pk == pk;
          assert events[k].pk == pk;
        }
        var row := events[at];
        assert row == old(events)[at];
        ghost var before, was := a.expected.Keys - rest, receipts;
        receipts := receipts[pk := ReceiptOf(row, a)];
        events := events[at := Erased(row)];
        rest := rest - {pk};
        assert a.expected.Keys - rest == before + {pk};
        EraseOne(old(events), before, at);
        ReceiptOne(old(Tables()), was, a, before, at);
      }
      assert a.expected.Keys - rest == a.expected.Keys;
      EraseAllEmpties(old(events), a.expected.Keys);
    }

    method FindEvent(pk: string) returns (at: nat)
      ensures at <= |events| && (at < |events| ==> events[at].pk == pk)
      ensures at == |events| ==> forall k | 0 <= k < |events| :: events[k].pk != pk
    {
      at := 0;
      while at < |events|
        invariant at <= |events| && forall k | 0 <= k < at :: events[k].pk != pk
      {
        if events[at].pk == pk { return; }
        at := at + 1;
      }
    }
  }

  lemma SelectedExists(db: Db, a: Request, pk: string)
    requires pk in a.expected && Selectable(db, a, pk)
    ensures exists k :: 0 <= k < |db.events| && db.events[k].pk == pk
  {
    var i :| 0 <= i < |PageOf(db, a.query)| && PageOf(db, a.query)[i].pk == pk;
    assert PageOf(db, a.query)[i] in PageOf(db, a.query);
  }

  lemma ItemMeans(db: Db, q: Query, r: EventRow)
    ensures ItemOf(db, q, r).pk == r.pk && ItemOf(db, q, r).digest == Snapshot(r, DependenciesOf(db, r), q.days)
    ensures ItemOf(db, q, r).blockers == [] <==> r.pk !in db.receipts && Unreferenced(db, r) && Inactive(r)
  {
    UnblockedMeansErasable(db, r, false);
    hide Blockers, Unreferenced, DependenciesOf;
  }

  lemma ItemDecides(db: Db, a: Request, items: seq<Item>, pk: string, at: Option<nat>)
    requires UniqueKeys(db.events) && pk in a.expected
    requires |items| == |PageOf(db, a.query)| && forall i | 0 <= i < |items| ::
        items[i] == ItemOf(db, a.query, PageOf(db, a.query)[i])
    requires at.Some? ==> at.value < |items| && items[at.value].pk == pk
    requires at.None? ==> forall i | 0 <= i < |items| :: items[i].pk != pk
    ensures Selectable(db, a, pk) <==>
        at.Some? && items[at.value].digest == a.expected[pk] && items[at.value].blockers == []
  {
    hide Unreferenced, DependenciesOf, Page, ItemOf, Inactive;
    var page := PageOf(db, a.query);
    assert UniqueKeys(page);
    hide PageOf;
    forall i | 0 <= i < |page|
      ensures items[i].pk == page[i].pk && items[i].digest == Snapshot(page[i], DependenciesOf(db, page[i]),
          a.query.days)
      ensures items[i].blockers == [] <==> page[i].pk !in db.receipts && Unreferenced(db, page[i]) && Inactive(page[i])
    {
      ItemMeans(db, a.query, page[i]);
    }
    forall i | 0 <= i < |page| && page[i].pk == pk ensures at == Some(i) {
      assert items[i].pk == pk;
    }
  }

  lemma EraseOne(events: seq<EventRow>, selected: set<string>, at: nat)
    requires UniqueKeys(events) && at < |events| && events[at].pk !in selected
    ensures EraseAll(events, selected)[at := Erased(events[at])] == EraseAll(events, selected + {events[at].pk})
  {}

  lemma ReceiptOne(db: Db, was: map<string, Receipt>, a: Request, selected: set<string>, at: nat)
    requires UniqueKeys(db.events) && at < |db.events| && db.events[at].pk !in selected
        && db.events[at].pk in a.expected && selected <= a.expected.Keys
    requires Receipted(db, was, a, selected)
    ensures Receipted(db, was[db.events[at].pk := ReceiptOf(db.events[at], a)], a, selected + {db.events[at].pk})
  {}

  // ---- whole runs
  // -----------------------------------------------------------------------------------------------------

  // `cleared` is history: how often each event was erased.
  datatype State = State(db: Db, cleared: multiset<string>)

  datatype Step =
    | Clear(request: Request, limits: Limits, late: Clock)
    | Rest(next: Db) // anything else the system does; receipts are only ever written by Clear

  ghost function AfterClear(db: Db, a: Request): Db {
    Db(EraseAll(db.events, a.expected.Keys), db.receipts + (map pk | pk in a.expected :: NewReceipt(db, a, pk)),
        db.others)
  }

  ghost function NewReceipt(db: Db, a: Request, pk: string): Receipt
    requires pk in a.expected
  {
    if exists k :: 0 <= k < |db.events| && db.events[k].pk == pk
    then var k :| 0 <= k < |db.events| && db.events[k].pk == pk; ReceiptOf(db.events[k], a)
    else Receipt(a.expected[pk], Missing, None, a.query.days, a.actor)
  }

  ghost function Apply(s: State, e: Step): State {
    match e
    case Clear(a, limits, late) =>
      if Applies(s.db, a, limits, late) then State(AfterClear(s.db, a), s.cleared + multiset(a.expected.Keys)) else s
    case Rest(next) => s.(db := next.(receipts := s.db.receipts))
  }

  ghost function Run(steps: seq<Step>): State {
    if steps == [] then State(Db([], map[], Others([], [], [])), multiset{})
    else Apply(Run(steps[..|steps| - 1]), steps[|steps| - 1])
  }

  lemma NewReceiptAt(db: Db, a: Request, pk: string)
    requires UniqueKeys(db.events) && pk in a.expected && exists k :: 0 <= k < |db.events| && db.events[k].pk == pk
    ensures exists k :: 0 <= k < |db.events| && db.events[k].pk == pk && NewReceipt(db, a, pk) ==
                        ReceiptOf(db.events[k], a)
  {}

  lemma EventsAfterClear(db: Db, a: Request)
    ensures AfterClear(db, a) == Db(EraseAll(db.events, a.expected.Keys), AfterClear(db, a).receipts, db.others)
  {}

  // The tables the method leaves behind are those of the model's step.
  lemma ReceiptedIsAfterClear(db: Db, after: map<string, Receipt>, a: Request)
    requires UniqueKeys(db.events) && Receipted(db, after, a, a.expected.Keys) && forall pk | pk in a.expected ::
        Selectable(db, a, pk)
    ensures after == AfterClear(db, a).receipts
  {
    var next := AfterClear(db, a).receipts;
    hide NewReceipt, Selectable, EraseAll, UniqueKeys;
    assert after.Keys == next.Keys;
    forall pk | pk in a.expected ensures after[pk] == NewReceipt(db, a, pk) {
      SelectedExists(db, a, pk);
      NewReceiptAt(db, a, pk);
    }
    forall pk | pk in after ensures after[pk] == next[pk] {}
  }

  ghost predicate Inv(s: State) {
    forall pk | pk in s.cleared :: s.cleared[pk] == 1 && pk in s.db.receipts
  }

  lemma StepKeeps(s: State, e: Step)
    requires Inv(s)
    ensures Inv(Apply(s, e))
  {
    if e.Clear? && Applies(s.db, e.request, e.limits, e.late) {
      forall pk | pk in Apply(s, e).cleared ensures Apply(s, e).cleared[pk] == 1 && pk in Apply(s, e).db.receipts {
        if pk in e.request.expected { assert Selectable(s.db, e.request, pk); }
      }
    }
  }

  lemma {:induction false} RunKeeps(steps: seq<Step>)
    ensures Inv(Run(steps))
  {
    if steps != [] {
      RunKeeps(steps[..|steps| - 1]);
      StepKeeps(Run(steps[..|steps| - 1]), steps[|steps| - 1]);
    }
  }

  /** No event is ever cleared twice, whatever else happens to its row in between. */
  lemma NeverClearedTwice(steps: seq<Step>, pk: string)
    ensures Run(steps).cleared[pk] <= 1
  {
    RunKeeps(steps);
  }

  lemma RunSnoc(steps: seq<Step>, e: Step)
    ensures Run(steps + [e]) == Apply(Run(steps), e)
  {
    assert (steps + [e])[..|steps|] == steps;
  }

  /** An event is cleared only in a step that finds it terminal, unleased, without artifact, without
      any reference to it and never cleared before; the step erases its body and nothing but the
      bodies of events it selected. */
  lemma ClearedOnlyWhenErasable(steps: seq<Step>, e: Step, pk: string)
    requires Run(steps + [e]).cleared[pk] != Run(steps).cleared[pk]
    ensures e.Clear? && pk in e.request.expected && pk !in Run(steps).db.receipts
    ensures exists r: EventRow :: r in Run(steps).db.events && r.pk == pk && Inactive(r)
                                  && Unreferenced(Run(steps).db, r)
    ensures Emptied(Run(steps).db, Run(steps + [e]).db, e.request)
  {
    RunSnoc(steps, e);
    var db := Run(steps).db;
    assert Applies(db, e.request, e.limits, e.late);
    hide Emptied, Run, AfterClear, ScanClean, ValidRequest;
    ClearingEmpties(db, e.request, e.limits, e.late);
    assert Selectable(db, e.request, pk);
    var i :| 0 <= i < |PageOf(db, e.request.query)| &&
             var r := PageOf(db, e.request.query)[i];
             r.pk == pk && r.pk !in db.receipts && Unreferenced(db, r) && Inactive(r);
    assert PageOf(db, e.request.query)[i] in PageOf(db, e.request.query);
  }

  lemma SelectionIsFresh(db: Db, a: Request, limits: Limits, late: Clock, pk: string)
    requires Applies(db, a, limits, late)
    ensures pk in a.expected ==> pk !in db.receipts
  {
    assert pk in a.expected ==> Selectable(db, a, pk);
  }

  lemma ReceiptStays(s: State, e: Step, pk: string)
    requires pk in s.db.receipts
    ensures pk in Apply(s, e).db.receipts && Apply(s, e).db.receipts[pk] == s.db.receipts[pk]
  {
    if e.Clear? && Applies(s.db, e.request, e.limits, e.late) {
      SelectionIsFresh(s.db, e.request, e.limits, e.late, pk);
    }
  }

  /** Receipts are permanent. */
  lemma {:induction false} ReceiptsArePermanent(steps: seq<Step>, more: seq<Step>, pk: string)
    requires pk in Run(steps).db.receipts
    ensures pk in Run(steps + more).db.receipts && Run(steps + more).db.receipts[pk] == Run(steps).db.receipts[pk]
    decreases |more|
  {
    hide Run, Apply;
    if more == [] {
      assert steps + more == steps;
    } else {
      var front, e := more[..|more| - 1], more[|more| - 1];
      ReceiptsArePermanent(steps, front, pk);
      assert steps + more == (steps + front) + [e];
      RunSnoc(steps + front, e);
      ReceiptStays(Run(steps + front), e, pk);
    }
  }

  lemma ErasedMentionsNothing(events: seq<EventRow>, selected: set<string>, e: Event)
    ensures forall k | 0 <= k < |events| ::
        Mentions(Payloads(EraseAll(events, selected)).records[k], e) ==> Mentions(Payloads(events).records[k], e)
  {}

  /** Erasing creates no reference: what was unreferenced stays so. */
  lemma ErasingCreatesNoReference(db: Db, a: Request, r: EventRow)
    requires Unreferenced(db, r)
    ensures Unreferenced(AfterClear(db, a), r)
  {
    var after := AfterClear(db, a);
    forall c, k | 0 <= c < |Columns(after)|
        && 0 <= k < |Columns(after)[c].records| ensures !Mentions(Columns(after)[c].records[k], EventOf(r)) {
      ErasedMentionsNothing(db.events, a.expected.Keys, EventOf(r));
      if c > 0 { assert Columns(after)[c] == db.others.columns[c - 1] == Columns(db)[c]; }
      else { assert Columns(after)[c] == Payloads(after.events) && Columns(db)[c] == Payloads(db.events); }
      assert !Mentions(Columns(db)[c].records[k], EventOf(r));
    }
  }
}
