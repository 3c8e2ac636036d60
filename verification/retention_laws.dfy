/**
 When a request may clear and what it then leaves, in terms of rows, times and documents alone.
 */
module RetentionLaws {
  import opened Options
  import opened JsonScan
  import opened Retention

  // ---- what refers to an event ------------------------------------------------------------------------

  // The document belongs to another row and holds one of the event's names.
  predicate Holding(owner: Option<string>, c: Cell, r: EventRow) {
    && owner != Some(r.pk) && (c.Blob? || c.Stored?) && c.parsed.Some?
    && (Contains(c.parsed.value, r.pk) || Contains(c.parsed.value, r.external))
  }

  ghost function Places(values: seq<Option<string>>, names: set<string>): set<int> {
    set k | 0 <= k < |values| && values[k].Some? && values[k].value in names
  }

  ghost function Naming(ref: Reference, names: set<string>): nat { |Places(ref.values, names)| }

  ghost function Bodies(db: Db, r: EventRow): nat {
    |set k | 0 <= k < |db.events| && Holding(Some(db.events[k].pk), db.events[k].payload, r)|
  }

  ghost function Records(c: Column, r: EventRow): nat {
    |set k | 0 <= k < |c.records| && Holding(c.records[k].owner, c.records[k].cell, r)|
  }

  ghost predicate NamedBy(refs: seq<Reference>, names: set<string>, d: Dependency) {
    exists i :: 0 <= i < |refs| && d == Dependency(refs[i].table, refs[i].column, Naming(refs[i], names))
  }

  ghost predicate HeldBy(columns: seq<Column>, r: EventRow, d: Dependency) {
    exists i :: 0 <= i < |columns| && d == Dependency(columns[i].table, columns[i].name, Records(columns[i], r))
  }

  ghost predicate Listed(db: Db, r: EventRow, d: Dependency) {
    && d.count > 0
    && (|| NamedBy(db.others.keys, {r.pk}, d) || NamedBy(db.others.sources, {r.pk, r.external}, d)
        || d == Dependency("inbound_events", "payload_json", Bodies(db, r)) || HeldBy(db.others.columns, r, d))
  }

  lemma {:induction false} OccurrencesCount(values: seq<Option<string>>, names: set<string>)
    ensures Occurrences(values, names) == |Places(values, names)|
  {
    if values != [] {
      var n := |values| - 1;
      OccurrencesCount(values[..n], names);
      PlacesSnoc(values, names);
      hide Places;
    }
  }

  lemma PlacesSnoc(values: seq<Option<string>>, names: set<string>)
    requires values != []
    ensures var n := |values| - 1;
            |Places(values, names)| ==
              |Places(values[..n], names)| + if values[n].Some? && values[n].value in names then 1 else 0
  {
    var n := |values| - 1;
    var here, fewer := Places(values, names), Places(values[..n], names);
    assert here == if values[n].Some? && values[n].value in names then fewer + {n} else fewer;
  }

  lemma NamedSnoc(refs: seq<Reference>, names: set<string>, d: Dependency)
    requires refs != []
    ensures var front, f := refs[..|refs| - 1], refs[|refs| - 1];
            NamedBy(refs, names, d) <==> NamedBy(front, names, d) || d ==
                                         Dependency(f.table, f.column, Naming(f, names))
  {
    hide Naming;
    var front := refs[..|refs| - 1];
    assert forall i | 0 <= i < |front| :: refs[i] == front[i];
  }

  lemma {:induction false} ReferringLists(refs: seq<Reference>, names: set<string>, d: Dependency)
    ensures d in Referring(refs, names) <==> d.count > 0 && NamedBy(refs, names, d)
  {
    if refs != [] {
      var f := refs[|refs| - 1];
      ReferringLists(refs[..|refs| - 1], names, d);
      NamedSnoc(refs, names, d);
      OccurrencesCount(f.values, names);
      assert Naming(f, names) == Occurrences(f.values, names);
      hide Occurrences, Naming, NamedBy;
    }
  }

  lemma HeldSnoc(columns: seq<Column>, r: EventRow, d: Dependency)
    requires columns != []
    ensures var front, c := columns[..|columns| - 1], columns[|columns| - 1];
            HeldBy(columns, r, d) <==> HeldBy(front, r, d) || d == Dependency(c.table, c.name, Records(c, r))
  {
    hide Records;
    var front := columns[..|columns| - 1];
    assert forall i | 0 <= i < |front| :: columns[i] == front[i];
  }

  lemma CountIsRecords(c: Column, r: EventRow)
    ensures Count(c.records, EventOf(r)) == Records(c, r)
  {
    assert forall k | 0 <= k < |c.records| ::
        Mentions(c.records[k], EventOf(r)) <==> Holding(c.records[k].owner, c.records[k].cell, r);
    assert (set k | 0 <= k < |c.records| && Mentions(c.records[k], EventOf(r))) ==
           (set k | 0 <= k < |c.records| && Holding(c.records[k].owner, c.records[k].cell, r));
  }

  lemma {:induction false} DependenciesList(columns: seq<Column>, r: EventRow, d: Dependency)
    ensures d in Dependencies(columns, EventOf(r)) <==> d.count > 0 && HeldBy(columns, r, d)
  {
    if columns != [] {
      DependenciesList(columns[..|columns| - 1], r, d);
      HeldSnoc(columns, r, d);
      CountIsRecords(columns[|columns| - 1], r);
      hide Count, Records, HeldBy;
    }
  }

  /** The preview lists a dependency if and only if that table and column hold that many references: a
      foreign key to the event, a source registered under one of its two names, or a readable document of
      another row with one of them in a string or key at any depth. */
  lemma DependenciesAreThese(db: Db, r: EventRow, d: Dependency)
    ensures d in DependenciesOf(db, r) <==> Listed(db, r, d)
  {
    ReferringLists(db.others.keys, {r.pk}, d);
    ReferringLists(db.others.sources, {r.pk, r.external}, d);
    DependenciesList(Columns(db), r, d);
    ColumnsHold(db, r, d);
    var found := Referring(db.others.keys, {r.pk}) + Referring(db.others.sources, {r.pk, r.external}) +
        Dependencies(Columns(db), EventOf(r));
    assert d in Sort(found) <==> d in multiset(Sort(found)) <==> d in multiset(found) <==> d in found;
    hide Referring, Dependencies, Sort, Columns, NamedBy, HeldBy, Bodies;
  }

  lemma ColumnsHold(db: Db, r: EventRow, d: Dependency)
    ensures HeldBy(Columns(db), r, d) <==>
              d == Dependency("inbound_events", "payload_json", Bodies(db, r)) || HeldBy(db.others.columns, r, d)
  {
    var all, c := Columns(db), Payloads(db.events);
    assert Records(c, r) == Bodies(db, r) by {
      assert (set k | 0 <= k < |c.records| && Holding(c.records[k].owner, c.records[k].cell, r)) ==
             (set k | 0 <= k < |db.events| && Holding(Some(db.events[k].pk), db.events[k].payload, r));
    }
    assert all[0] == c && forall i | 0 <= i < |db.others.columns| :: all[i + 1] == db.others.columns[i];
    hide Records, Bodies;
    if HeldBy(all, r, d) {
      var i :| 0 <= i < |all| && d == Dependency(all[i].table, all[i].name, Records(all[i], r));
      if i > 0 { assert all[i] == db.others.columns[i - 1]; }
    }
  }

  /** What the preview tells of a row: its key, the snapshot a request must repeat, and each blocker exactly
      when it applies. */
  lemma PreviewTells(db: Db, q: Query, r: EventRow, b: Blocker)
    ensures var item := ItemOf(db, q, r);
            && item.pk == r.pk && item.digest == Snapshot(r, DependenciesOf(db, r), q.days)
            && (b in item.blockers <==>
                  match b
                  case AlreadyCleared => r.pk in db.receipts
                  case Referenced => exists d :: Listed(db, r, d)
                  case ScanIncomplete => false
                  case Nonterminal => r.status != Processed && r.status != Ignored
                  case LeasePresent =>
                    (r.leaseOwner.Some? && r.leaseOwner.value != "") || (r.leaseExpires.Some?
                        && r.leaseExpires.value != "")
                  case ArtifactPresent => r.artifact.Some? && r.artifact.value != "")
  {
    NothingListed(db, r);
    BlockersTell(r.pk in db.receipts, DependenciesOf(db, r) != [], r, b);
    hide DependenciesOf, Listed, Blockers;
  }

  lemma BlockersTell(cleared: bool, referenced: bool, r: EventRow, b: Blocker)
    ensures b in Blockers(cleared, referenced, false, r) <==>
              match b
              case AlreadyCleared => cleared
              case Referenced => referenced
              case ScanIncomplete => false
              case Nonterminal => r.status != Processed && r.status != Ignored
              case LeasePresent =>
                (r.leaseOwner.Some? && r.leaseOwner.value != "") || (r.leaseExpires.Some? && r.leaseExpires.value != "")
              case ArtifactPresent => r.artifact.Some? && r.artifact.value != ""
  {}

  lemma NothingListed(db: Db, r: EventRow)
    ensures DependenciesOf(db, r) == [] <==> forall d :: !Listed(db, r, d)
  {
    var ds := DependenciesOf(db, r);
    hide DependenciesOf, Listed;
    if ds != [] { DependenciesAreThese(db, r, ds[0]); }
    if d :| Listed(db, r, d) { DependenciesAreThese(db, r, d); }
  }

  // ---- the page -----------------------------------------------------------------------------------------

  ghost function Older(events: seq<EventRow>, from: nat, to: nat, cutoff: int): set<nat>
    requires to <= |events|
  {
    set i: nat | from <= i < to && events[i].received < cutoff
  }

  // The row at k is old enough, and fewer than a page of such rows stand before it.
  ghost predicate OnPage(events: seq<EventRow>, from: nat, cutoff: int, limit: nat, k: nat) {
    from <= k < |events| && events[k].received < cutoff && |Older(events, from, k, cutoff)| < limit
  }

  /** The page is exactly those rows. */
  lemma {:induction false} PageIs(events: seq<EventRow>, from: nat, cutoff: int, limit: nat, r: EventRow)
    ensures r in Page(events, from, cutoff, limit) <==>
        exists k: nat :: OnPage(events, from, cutoff, limit, k) && events[k] == r
    decreases |events| - from
  {
    if from < |events| && limit > 0 {
      var aged := events[from].received < cutoff;
      var left := if aged then limit - 1 else limit;
      PageIs(events, from + 1, cutoff, left, r);
      forall k | from < k < |events| ensures OnPage(events, from, cutoff, limit, k) <==>
          OnPage(events, from + 1, cutoff, left, k) {
        assert Older(events, from, k, cutoff) ==
            if aged then Older(events, from + 1, k, cutoff) + {from} else Older(events, from + 1, k, cutoff);
      }
      assert Older(events, from, from, cutoff) == {};
      assert OnPage(events, from, cutoff, limit, from) <==> aged;
      hide OnPage;
    }
  }

  // ---- clearing -------------------------------------------------------------------------------------------

  // The row may be cleared by the request, once it stands on the page.
  ghost predicate Fit(db: Db, a: Request, r: EventRow) {
    && r.pk in a.expected && a.expected[r.pk] == Snapshot(r, DependenciesOf(db, r), a.query.days)
    && r.pk !in db.receipts && (r.status == Processed || r.status == Ignored)
    && (r.leaseOwner.Some? ==> r.leaseOwner.value == "") && (r.leaseExpires.Some? ==> r.leaseExpires.value == "")
    && (r.artifact.Some? ==> r.artifact.value == "")
    && (forall d :: !Listed(db, r, d))
  }

  ghost predicate Erasable(db: Db, a: Request, pk: string) {
    var q := a.query;
    exists k: nat :: OnPage(db.events, q.from, q.now - q.days * 86400, q.limit, k) &&
      db.events[k].pk == pk && Fit(db, a, db.events[k])
  }

  predicate Parses(c: Cell) { c.Missing? || ((c.Blob? || c.Stored?) && c.parsed.Some?) }

  ghost predicate AllParse(columns: seq<Column>) {
    forall i, k | 0 <= i < |columns| && 0 <= k < |columns[i].records| :: Parses(columns[i].records[k].cell)
  }

  // Every document of the database is read within the budgets and parses.
  ghost predicate Legible(db: Db, limits: Limits, late: Clock) {
    && Affordable(Flat(Columns(db)), limits, late)
    && (forall i | 0 <= i < |db.events| :: Parses(db.events[i].payload)) && AllParse(db.others.columns)
  }

  // The request itself is in order.
  predicate Proper(a: Request) {
    && 1 <= a.query.days <= 3650 && 1 <= a.query.limit <= 50 && a.guard && 1 <= |a.expected| <= 50
    && |a.actor| <= 200 && (exists i :: 0 <= i < |a.actor| && a.actor[i] !in {' ', '\t', '\n', '\r'})
  }

  ghost predicate MayClear(db: Db, a: Request, limits: Limits, late: Clock) {
    Proper(a) && Legible(db, limits, late) && forall pk | pk in a.expected :: Erasable(db, a, pk)
  }

  lemma ParseIsReadable(columns: seq<Column>)
    ensures AllParse(columns) <==>
        forall i, k | 0 <= i < |columns| && 0 <= k < |columns[i].records| :: Readable(columns[i].records[k])
  {
    assert forall r: Record :: Parses(r.cell) <==> Readable(r);
    hide Parses, Readable;
  }

  lemma ParseCons(c: Column, columns: seq<Column>)
    ensures AllParse([c] + columns) <==>
        (forall k | 0 <= k < |c.records| :: Parses(c.records[k].cell)) && AllParse(columns)
  {
    var all := [c] + columns;
    hide Parses;
    assert all[0] == c && forall i | 0 <= i < |columns| :: all[i + 1] == columns[i];
    if AllParse(all) {
      forall i, k | 0 <= i < |columns| && 0 <= k < |columns[i].records| ensures Parses(columns[i].records[k].cell) {
        assert Parses(all[i + 1].records[k].cell);
      }
    }
  }

  lemma LegibleIs(db: Db, limits: Limits, late: Clock)
    ensures Legible(db, limits, late) <==> Affordable(Flat(Columns(db)), limits, late) && Problems(Columns(db)) == []
  {
    var c := Payloads(db.events);
    NoProblemsMeansReadable(Columns(db));
    ParseIsReadable(Columns(db));
    ParseCons(c, db.others.columns);
    assert forall k | 0 <= k < |db.events| :: c.records[k].cell == db.events[k].payload;
    hide Affordable, Problems, Flat, AllParse, Parses, Readable;
  }

  lemma FitIs(db: Db, a: Request, r: EventRow)
    requires r.pk in a.expected
    ensures Fit(db, a, r) <==>
        Snapshot(r, DependenciesOf(db, r), a.query.days) == a.expected[r.pk] && r.pk !in db.receipts
        && Unreferenced(db, r) && Inactive(r)
  {
    DependenciesAreExact(db, r);
    NothingListed(db, r);
    hide DependenciesOf, Listed, Unreferenced;
  }

  ghost predicate FitIn(db: Db, a: Request, page: seq<EventRow>, pk: string) {
    exists i :: 0 <= i < |page| && page[i].pk == pk && Fit(db, a, page[i])
  }

  lemma SelectableFits(db: Db, a: Request, pk: string)
    requires pk in a.expected
    ensures Selectable(db, a, pk) <==> FitIn(db, a, PageOf(db, a.query), pk)
  {
    hide Unreferenced, Inactive, DependenciesOf, Fit, PageOf;
    var page := PageOf(db, a.query);
    forall i | 0 <= i < |page| && page[i].pk == pk ensures Fit(db, a, page[i]) <==>
      Snapshot(page[i], DependenciesOf(db, page[i]), a.query.days) == a.expected[pk] && page[i].pk !in db.receipts
      && Unreferenced(db, page[i]) && Inactive(page[i])
    {
      FitIs(db, a, page[i]);
    }
  }

  ghost predicate StandsOn(events: seq<EventRow>, q: Query, r: EventRow) {
    exists k: nat :: OnPage(events, q.from, q.now - q.days * 86400, q.limit, k) && events[k] == r
  }

  lemma FitsOnPage(db: Db, a: Request, page: seq<EventRow>, pk: string)
    requires forall r :: r in page <==> StandsOn(db.events, a.query, r)
    ensures FitIn(db, a, page, pk) <==> Erasable(db, a, pk)
  {
    hide Fit, Older;
    if FitIn(db, a, page, pk) {
      var i :| 0 <= i < |page| && page[i].pk == pk && Fit(db, a, page[i]);
      assert StandsOn(db.events, a.query, page[i]);
    }
    if Erasable(db, a, pk) {
      var k: nat :| OnPage(db.events, a.query.from, a.query.now - a.query.days * 86400, a.query.limit, k) &&
        db.events[k].pk == pk && Fit(db, a, db.events[k]);
      assert StandsOn(db.events, a.query, db.events[k]);
      assert db.events[k] in page;
    }
  }

  lemma PageStands(db: Db, q: Query, r: EventRow)
    ensures r in PageOf(db, q) <==> StandsOn(db.events, q, r)
  {
    hide Page, Older;
    PageIs(db.events, q.from, q.now - q.days * 86400, q.limit, r);
  }

  lemma SelectableIs(db: Db, a: Request, pk: string)
    requires pk in a.expected
    ensures Selectable(db, a, pk) <==> Erasable(db, a, pk)
    ensures Selectable(db, a, pk) ==> PageOf(db, a.query) != []
  {
    hide Selectable, Fit, PageOf, StandsOn, Erasable;
    SelectableFits(db, a, pk);
    forall r ensures r in PageOf(db, a.query) <==> StandsOn(db.events, a.query, r) {
      PageStands(db, a.query, r);
    }
    FitsOnPage(db, a, PageOf(db, a.query), pk);
  }

  /** A request is applied if and only if it is well formed, its guard still permits it, every document is
      legible within budget, and every selected row stands on the page of rows older than the retention,
      is exactly as previewed, finished, without lease, artifact, receipt, and is referred to by nothing. */
  lemma AppliesIff(db: Db, a: Request, limits: Limits, late: Clock)
    ensures Applies(db, a, limits, late) <==> MayClear(db, a, limits, late)
  {
    assert ValidRequest(a) <==> Proper(a);
    assert Proper(a) ==> |a.expected| >= 1 && exists pk :: pk in a.expected;
    LegibleIs(db, limits, late);
    hide Selectable, Erasable, Legible, PageOf, Columns, Flat, Affordable, Problems, Proper, ValidRequest;
    forall pk | pk in a.expected
      ensures Selectable(db, a, pk) <==> Erasable(db, a, pk)
      ensures Selectable(db, a, pk) ==> PageOf(db, a.query) != []
    {
      SelectableIs(db, a, pk);
    }
  }

  /** Over runs, in both directions: an event is counted as cleared in exactly those steps whose request
      selects it and may be applied; its row is then emptied and its receipt written, once. A request
      that may not be applied changes nothing. */
  lemma ClearsIff(steps: seq<Step>, e: Step, pk: string)
    ensures var s, t := Run(steps), Run(steps + [e]);
            var clears := e.Clear? && MayClear(s.db, e.request, e.limits, e.late);
            && (t.cleared[pk] == 1 && s.cleared[pk] == 0 <==> clears && pk in e.request.expected)
            && (!(clears && pk in e.request.expected) ==> t.cleared[pk] == s.cleared[pk])
            && (clears ==> Emptied(s.db, t.db, e.request))
            && (e.Clear? && !clears ==> t == s)
  {
    RunSnoc(steps, e);
    RunKeeps(steps);
    RunKeeps(steps + [e]);
    if e.Clear? {
      var s := Run(steps);
      AppliesIff(s.db, e.request, e.limits, e.late);
      hide Run, Applies, MayClear, Emptied, AfterClear;
      if Applies(s.db, e.request, e.limits, e.late) {
        ClearingEmpties(s.db, e.request, e.limits, e.late);
        SelectionIsFresh(s.db, e.request, e.limits, e.late, pk);
      }
    }
  }
}
