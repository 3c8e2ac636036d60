/**
 The inventory of rows that refer to a Case through declared foreign keys: a breadth-first search
 with a row budget, run over whatever order and batching the database delivers.
 */
module ReferenceGraph {
  import opened Options

  type Key = seq<string>
  type Columns = map<string, Option<string>>

  // One declared key of a child table: pairs of a child column and the parent column it names.
  datatype ForeignKey = ForeignKey(child: string, pairs: seq<(string, string)>)

  // `width` is the number of identity columns; `collate` the comparison form of a parent column.
  datatype Db = Db(
    rows: map<string, map<Key, Columns>>,
    edges: map<string, seq<ForeignKey>>,
    width: map<string, nat>,
    collate: (string, string, string) -> string)

  datatype Row = Row(table: string, key: Key)

  function Edges(db: Db, table: string): seq<ForeignKey> {
    if table in db.edges then db.edges[table] else []
  }

  predicate Stored(db: Db, r: Row) { r.table in db.rows && r.key in db.rows[r.table] }

  function Column(db: Db, r: Row, name: string): Option<string>
    requires Stored(db, r)
  {
    if name in db.rows[r.table][r.key] then db.rows[r.table][r.key][name] else None
  }

  // Every pair of a composite key matches, by the parent column's collation, and none is NULL.
  predicate Joins(db: Db, fk: ForeignKey, p: Row, c: Row) {
    && Stored(db, p) && Stored(db, c) && c.table == fk.child
    && forall i | 0 <= i < |fk.pairs| ::
         var a, b := Column(db, c, fk.pairs[i].0), Column(db, p, fk.pairs[i].1);
         && a.Some? && b.Some?
         && db.collate(p.table, fk.pairs[i].1, b.value) == db.collate(p.table, fk.pairs[i].1, a.value)
  }

  // ---- the definition: reachability --------------------------------------------------------------

  predicate Refers(db: Db, p: Row, c: Row) {
    exists i :: 0 <= i < |Edges(db, p.table)| && Joins(db, Edges(db, p.table)[i], p, c)
  }

  ghost predicate Path(db: Db, path: seq<Row>) {
    forall i | 0 <= i < |path| - 1 :: Refers(db, path[i], path[i + 1])
  }

  ghost predicate Reachable(db: Db, root: Row, r: Row) {
    exists path: seq<Row> :: |path| > 0 && path[0] == root && path[|path| - 1] == r && Path(db, path)
  }

  function AllRows(db: Db): set<Row> {
    set t, k | t in db.rows && k in db.rows[t] :: Row(t, k)
  }

  ghost function Closure(db: Db, root: Row): set<Row> {
    set r | r in AllRows(db) && Reachable(db, root, r)
  }

  lemma ReachableExtends(db: Db, root: Row, p: Row, c: Row)
    requires Reachable(db, root, p) && Refers(db, p, c)
    ensures Reachable(db, root, c)
  {
    var path :| |path| > 0 && path[0] == root && path[|path| - 1] == p && Path(db, path);
    var longer := path + [c];
    forall i | 0 <= i < |longer| - 1 ensures Refers(db, longer[i], longer[i + 1]) {
      if i < |path| - 1 { assert Refers(db, path[i], path[i + 1]); }
    }
    assert Path(db, longer) && longer[|longer| - 1] == c;
  }

  // A set that holds the first row of a path and is closed under references holds its last row.
  lemma {:induction false} ClosedHoldsPath(db: Db, closed: set<Row>, path: seq<Row>)
    requires |path| > 0 && path[0] in closed && Path(db, path)
    requires forall p, c | p in closed && Refers(db, p, c) :: c in closed
    ensures path[|path| - 1] in closed
    decreases |path|
  {
    if |path| > 1 {
      var front := path[..|path| - 1];
      assert Path(db, front) by {
        forall i | 0 <= i < |front| - 1 ensures Refers(db, front[i], front[i + 1]) {
          assert Refers(db, path[i], path[i + 1]);
        }
      }
      ClosedHoldsPath(db, closed, front);
      assert Refers(db, path[|path| - 2], path[|path| - 1]);
    }
  }

  lemma ClosedIsClosure(db: Db, root: Row, closed: set<Row>)
    requires root in closed && closed <= Closure(db, root)
    requires forall p, c | p in closed && Refers(db, p, c) :: c in closed
    ensures closed == Closure(db, root)
  {
    forall r | r in Closure(db, root) ensures r in closed {
      var path :| |path| > 0 && path[0] == root && path[|path| - 1] == r && Path(db, path);
      ClosedHoldsPath(db, closed, path);
    }
  }

  // ---- tables of identities -------------------------------------------------------------------------

  type Ids = map<string, set<Key>>

  function RowsOf(m: Ids): set<Row> {
    set t, k | t in m && k in m[t] :: Row(t, k)
  }

  function At(m: Ids, t: string): set<Key> { if t in m then m[t] else {} }

  lemma AddRow(m: Ids, t: string, k: Key)
    ensures RowsOf(m[t := At(m, t) + {k}]) == RowsOf(m) + {Row(t, k)}
  {
    var n := m[t := At(m, t) + {k}];
    forall r: Row ensures r in RowsOf(n) <==> r in RowsOf(m) + {Row(t, k)} {
      if r.table == t { assert r == Row(t, r.key); }
    }
  }

  // The variables the nested loops share.
  datatype Found = Found(reached: Ids, following: Ids, count: nat, truncated: bool)

  ghost predicate Sound(db: Db, root: Row, budget: nat, f: Found) {
    && RowsOf(f.reached) <= Closure(db, root) && root in RowsOf(f.reached)
    && f.count == |RowsOf(f.reached)| <= budget
    && (f.truncated ==> f.count == budget && RowsOf(f.reached) != Closure(db, root))
  }

  // Rows are only added, and each added row is queued for the next round.
  ghost predicate Grows(f: Found, g: Found) {
    && RowsOf(f.reached) <= RowsOf(g.reached)
    && RowsOf(g.following) == RowsOf(f.following) + (RowsOf(g.reached) - RowsOf(f.reached))
    && (f.truncated ==> g == f)
  }

  lemma GrowsTransitive(f: Found, g: Found, h: Found)
    requires Grows(f, g) && Grows(g, h)
    ensures Grows(f, h)
  {
    hide RowsOf;
  }

  lemma TruncateGrows(f: Found, g: Found)
    requires Grows(f, g) && !f.truncated
    ensures Grows(f, g.(truncated := true))
  {
    hide RowsOf;
  }

  // Tables enter the frontier with a row.
  ghost predicate NonEmpty(m: Ids) { forall t | t in m :: m[t] != {} }

  lemma AddFound(f: Found, t: string, k: Key)
    requires Row(t, k) !in RowsOf(f.reached) && !f.truncated && NonEmpty(f.following)
    ensures var g := Found(f.reached[t := At(f.reached, t) + {k}], f.following[t := At(f.following, t) + {k}],
        f.count + 1, false);
            Grows(f, g) && NonEmpty(g.following) && RowsOf(g.reached) == RowsOf(f.reached) + {Row(t, k)}
  {
    AddRow(f.reached, t, k);
    AddRow(f.following, t, k);
    hide RowsOf;
  }

  // ---- the query ------------------------------------------------------------------------------------------

  function Query(db: Db, parent: string, fk: ForeignKey, batch: set<Key>): set<Key> {
    if fk.child !in db.rows then {}
    else set k | k in db.rows[fk.child] && exists p :: p in batch && Joins(db, fk, Row(parent, p), Row(fk.child, k))
  }

  // ---- the search, innermost loop first ----------------------------------------------------------------------

  method ScanCursor(db: Db, ghost root: Row, budget: nat, child: string, cursor: set<Key>, f: Found) returns (g: Found)
    requires Sound(db, root, budget, f) && NonEmpty(f.following) && !f.truncated
    requires forall k | k in cursor :: Row(child, k) in Closure(db, root)
    ensures Sound(db, root, budget, g) && NonEmpty(g.following) && Grows(f, g)
    ensures !g.truncated ==> forall k | k in cursor :: Row(child, k) in RowsOf(g.reached)
  {
    g := f;
    var rest := cursor;
    hide Closure, Grows, NonEmpty;
    GrowsSelf(f);
    while rest != {}
      invariant rest <= cursor
      invariant Sound(db, root, budget, g) && NonEmpty(g.following) && Grows(f, g) && !g.truncated
      invariant forall k | k in cursor && k !in rest :: Row(child, k) in RowsOf(g.reached)
      decreases rest
    {
      var k :| k in rest;
      rest := rest - {k};
      assert Row(child, k) in RowsOf(g.reached) <==> k in At(g.reached, child);
      hide RowsOf;
      if k in At(g.reached, child) { continue; }
      if g.count >= budget {
        assert Row(child, k) in Closure(db, root);
        TruncateGrows(f, g);
        g := g.(truncated := true);
        return;
      }
      AddFound(g, child, k);
      ghost var before := g;
      g := Found(g.reached[child := At(g.reached, child) + {k}], g.following[child := At(g.following, child) + {k}],
          g.count + 1, false);
      GrowsTransitive(f, before, g);
    }
  }

  function BatchSize(db: Db, parent: string): nat
    requires parent in db.width && db.width[parent] > 0
  {
    var n := 200 / db.width[parent];
    if n < 1 then 1 else n
  }

  function Elements(s: seq<Key>): set<Key> { set i | 0 <= i < |s| :: s[i] }

  // Every row that refers to one of these through this key was found.
  ghost predicate KeyDone(db: Db, parent: string, fk: ForeignKey, ids: set<Key>, g: Found) {
    forall k | k in Query(db, parent, fk, ids) :: Row(fk.child, k) in RowsOf(g.reached)
  }

  lemma KeyDoneGrows(db: Db, parent: string, fk: ForeignKey, ids: set<Key>, g: Found, h: Found)
    requires KeyDone(db, parent, fk, ids, g) && Grows(g, h)
    ensures KeyDone(db, parent, fk, ids, h)
  {}

  lemma KeyDoneJoins(db: Db, parent: string, fk: ForeignKey, a: seq<Key>, b: seq<Key>, g: Found)
    requires KeyDone(db, parent, fk, Elements(a), g) && KeyDone(db, parent, fk, Elements(b), g)
    ensures KeyDone(db, parent, fk, Elements(a + b), g)
  {
    forall k | k in Query(db, parent, fk, Elements(a + b)) ensures Row(fk.child, k) in RowsOf(g.reached) {
      var p :| p in Elements(a + b) && Joins(db, fk, Row(parent, p), Row(fk.child, k));
      assert p in Elements(a) || p in Elements(b);
      assert k in Query(db, parent, fk, Elements(a)) || k in Query(db, parent, fk, Elements(b));
    }
  }

  ghost predicate Known(db: Db, root: Row, parent: string, ids: set<Key>) {
    forall k | k in ids :: Row(parent, k) in Closure(db, root)
  }

  lemma QueryReachable(db: Db, root: Row, parent: string, fk: ForeignKey, ids: set<Key>)
    requires Known(db, root, parent, ids) && fk in Edges(db, parent)
    ensures forall k | k in Query(db, parent, fk, ids) :: Row(fk.child, k) in Closure(db, root)
  {
    forall k | k in Query(db, parent, fk, ids) ensures Row(fk.child, k) in Closure(db, root) {
      var p :| p in ids && Joins(db, fk, Row(parent, p), Row(fk.child, k));
      assert Refers(db, Row(parent, p), Row(fk.child, k));
      ReachableExtends(db, root, Row(parent, p), Row(fk.child, k));
    }
  }

  method ScanBatches(db: Db, ghost root: Row, budget: nat, parent: string, fk: ForeignKey, ordered: seq<Key>,
      f: Found) returns (g: Found)
    requires parent in db.width && db.width[parent] > 0
    requires Sound(db, root, budget, f) && NonEmpty(f.following) && !f.truncated
    requires fk in Edges(db, parent) && Known(db, root, parent, Elements(ordered))
    ensures Sound(db, root, budget, g) && NonEmpty(g.following) && Grows(f, g)
    ensures !g.truncated ==> KeyDone(db, parent, fk, Elements(ordered), g)
  {
    g := f;
    var start, size := 0, BatchSize(db, parent);
    EmptyQuery(db, parent, fk, g);
    hide Closure, Sound, Query, KeyDone, Known, Elements, RowsOf, Grows, NonEmpty;
    assert ordered[..0] == [];
    assert Grows(f, f) by { GrowsSelf(f); }
    while start < |ordered| && !g.truncated
      invariant 0 <= start <= |ordered|
      invariant Sound(db, root, budget, g) && NonEmpty(g.following) && Grows(f, g)
      invariant !g.truncated ==> KeyDone(db, parent, fk, Elements(ordered[..start]), g)
      decreases |ordered| - start
    {
      var end := if start + size < |ordered| then start + size else |ordered|;
      var batch := ordered[start..end];
      BatchReachable(db, root, parent, fk, ordered, start, end);
      var before := g;
      g := ScanCursor(db, root, budget, fk.child, Query(db, parent, fk, Elements(batch)), before);
      GrowsTransitive(f, before, g);
      if !g.truncated {
        CursorDone(db, parent, fk, Elements(batch), g);
        KeyDoneGrows(db, parent, fk, Elements(ordered[..start]), before, g);
        KeyDoneJoins(db, parent, fk, ordered[..start], batch, g);
        assert ordered[..start] + batch == ordered[..end];
      }
      start := end;
    }
    assert start == |ordered| ==> ordered[..start] == ordered;
  }

  lemma EmptyQuery(db: Db, parent: string, fk: ForeignKey, g: Found)
    ensures KeyDone(db, parent, fk, Elements([]), g)
  {
    assert Query(db, parent, fk, Elements([])) == {};
  }

  lemma CursorDone(db: Db, parent: string, fk: ForeignKey, ids: set<Key>, g: Found)
    requires forall k | k in Query(db, parent, fk, ids) :: Row(fk.child, k) in RowsOf(g.reached)
    ensures KeyDone(db, parent, fk, ids, g)
  {}

  lemma GrowsSelf(f: Found)
    ensures Grows(f, f)
  {
    hide RowsOf;
  }

  lemma BatchReachable(db: Db, root: Row, parent: string, fk: ForeignKey, ordered: seq<Key>, start: nat, end: nat)
    requires start <= end <= |ordered| && Known(db, root, parent, Elements(ordered)) && fk in Edges(db, parent)
    ensures forall k | k in Query(db, parent, fk, Elements(ordered[start..end])) ::
        Row(fk.child, k) in Closure(db, root)
  {
    assert forall k | k in Elements(ordered[start..end]) :: k in Elements(ordered);
    QueryReachable(db, root, parent, fk, Elements(ordered[start..end]));
  }

  ghost predicate TableDone(db: Db, parent: string, n: nat, ids: set<Key>, g: Found) {
    forall i | 0 <= i < n && i < |Edges(db, parent)| :: KeyDone(db, parent, Edges(db, parent)[i], ids, g)
  }

  method ScanKeys(db: Db, ghost root: Row, budget: nat, parent: string, ids: set<Key>, f: Found) returns (g: Found)
    requires parent in db.width && db.width[parent] > 0
    requires Sound(db, root, budget, f) && NonEmpty(f.following) && !f.truncated && Known(db, root, parent, ids)
    ensures Sound(db, root, budget, g) && NonEmpty(g.following) && Grows(f, g)
    ensures !g.truncated ==> TableDone(db, parent, |Edges(db, parent)|, ids, g)
  {
    g := f;
    var ordered := InSomeOrder(ids);
    var keys := Edges(db, parent);
    var i := 0;
    hide Closure, Sound, KeyDone;
    while i < |keys| && !g.truncated
      invariant 0 <= i <= |keys|
      invariant Sound(db, root, budget, g) && NonEmpty(g.following) && Grows(f, g)
      invariant !g.truncated ==> TableDone(db, parent, i, ids, g)
      decreases |keys| - i
    {
      var before := g;
      g := ScanBatches(db, root, budget, parent, keys[i], ordered, before);
      GrowsTransitive(f, before, g);
      if !g.truncated {
        forall n | 0 <= n < i ensures KeyDone(db, parent, keys[n], ids, g) {
          KeyDoneGrows(db, parent, keys[n], ids, before, g);
        }
      }
      i := i + 1;
    }
  }

  method InSomeOrder(ids: set<Key>) returns (ordered: seq<Key>)
    ensures Elements(ordered) == ids
  {
    ordered := [];
    var rest := ids;
    while rest != {}
      invariant rest <= ids && Elements(ordered) == ids - rest
      decreases rest
    {
      var k :| k in rest;
      ghost var before := ordered;
      ordered := ordered + [k];
      assert Elements(ordered) == Elements(before) + {k} by {
        assert forall i | 0 <= i < |before| :: ordered[i] == before[i];
        assert ordered[|before|] == k;
      }
      rest := rest - {k};
    }
  }

  method ScanFrontier(db: Db, ghost root: Row, budget: nat, frontier: Ids, f: Found) returns (g: Found)
    requires forall t | t in frontier :: t in db.width && db.width[t] > 0
    requires Sound(db, root, budget, f) && NonEmpty(f.following) && !f.truncated
    requires forall t | t in frontier :: Known(db, root, t, frontier[t])
    ensures Sound(db, root, budget, g) && NonEmpty(g.following) && Grows(f, g)
    ensures !g.truncated ==> forall t | t in frontier :: TableDone(db, t, |Edges(db, t)|, frontier[t], g)
  {
    g := f;
    var rest := frontier.Keys;
    hide Closure, Sound, KeyDone;
    while rest != {} && !g.truncated
      invariant rest <= frontier.Keys
      invariant Sound(db, root, budget, g) && NonEmpty(g.following) && Grows(f, g)
      invariant !g.truncated ==> forall t | t in frontier && t !in rest ::
                                 TableDone(db, t, |Edges(db, t)|, frontier[t], g)
      decreases rest
    {
      var parent :| parent in rest;
      rest := rest - {parent};
      var before := g;
      g := ScanKeys(db, root, budget, parent, frontier[parent], before);
      GrowsTransitive(f, before, g);
      if !g.truncated {
        forall t | t in frontier && t != parent && t !in rest ensures TableDone(db, t, |Edges(db, t)|, frontier[t], g) {
          TableDoneGrows(db, t, frontier[t], before, g);
        }
      }
    }
  }

  lemma TableDoneGrows(db: Db, t: string, ids: set<Key>, g: Found, h: Found)
    requires TableDone(db, t, |Edges(db, t)|, ids, g) && Grows(g, h)
    ensures TableDone(db, t, |Edges(db, t)|, ids, h)
  {
    forall i | 0 <= i < |Edges(db, t)| ensures KeyDone(db, t, Edges(db, t)[i], ids, h) {
      KeyDoneGrows(db, t, Edges(db, t)[i], ids, g, h);
    }
  }

  // Every row outside the frontier has had its references followed.
  ghost predicate Followed(db: Db, g: Found, frontier: Ids) {
    forall p, c | p in RowsOf(g.reached) && p !in RowsOf(frontier) && Refers(db, p, c) :: c in RowsOf(g.reached)
  }

  lemma RoundFollows(db: Db, f: Found, g: Found, frontier: Ids)
    requires Followed(db, f, frontier) && Grows(f, g) && f.following == map[]
    requires forall t | t in frontier :: TableDone(db, t, |Edges(db, t)|, frontier[t], g)
    ensures Followed(db, g, g.following)
  {
    forall p, c | p in RowsOf(g.reached) && p !in RowsOf(g.following) && Refers(db, p,
        c) ensures c in RowsOf(g.reached) {
      assert RowsOf(f.following) == {};
      assert p in RowsOf(f.reached);
      if p in RowsOf(frontier) {
        var i :| 0 <= i < |Edges(db, p.table)| && Joins(db, Edges(db, p.table)[i], p, c);
        var fk := Edges(db, p.table)[i];
        assert KeyDone(db, p.table, fk, frontier[p.table], g);
        assert p == Row(p.table, p.key) && c == Row(fk.child, c.key);
        assert c.key in Query(db, p.table, fk, frontier[p.table]);
      }
    }
  }

  lemma FrontierKnown(db: Db, root: Row, m: Ids, t: string)
    requires RowsOf(m) <= Closure(db, root) && t in m
    ensures Known(db, root, t, m[t])
  {
    forall k | k in m[t] ensures Row(t, k) in Closure(db, root) { assert Row(t, k) in RowsOf(m); }
  }

  // Identity columns exist for every table the search may read.
  ghost predicate Identified(db: Db) {
    forall t | t in db.rows :: t in db.width && db.width[t] > 0
  }

  lemma SplitSet(a: set<Row>, b: set<Row>, w: set<Row>)
    requires a <= b && w == b - a
    ensures |b| == |a| + |w|
  {
    assert b == a + w;
  }

  lemma GrowthCounts(f: Found, g: Found)
    requires Grows(f, g) && f.following == map[]
    ensures |RowsOf(g.reached)| == |RowsOf(f.reached)| + |RowsOf(g.following)|
  {
    assert RowsOf(f.following) == {};
    var a, b, w := RowsOf(f.reached), RowsOf(g.reached), RowsOf(g.following);
    assert a <= b && w == b - a;
    hide *;
    SplitSet(a, b, w);
  }

  lemma StoredTables(db: Db, root: Row, m: Ids)
    requires RowsOf(m) <= Closure(db, root) && Identified(db)
    ensures forall t | t in m && m[t] != {} :: t in db.width && db.width[t] > 0
  {
    forall t | t in m && m[t] != {} ensures t in db.width && db.width[t] > 0 {
      var k :| k in m[t];
      assert Row(t, k) in RowsOf(m);
    }
  }

  datatype Answer = Invalid | NotFound | Inventory(tables: Ids, rows: nat, truncated: bool)

  predicate IsCase(db: Db, id: string, k: Key) {
    "cases" in db.rows && k in db.rows["cases"] && Column(db, Row("cases", k), "case_id") == Some(id)
  }

  /** The search terminates on every graph, cyclic or not. It reports truncation exactly when more
      rows are reachable than the budget allows, and then has found exactly the budget; otherwise it
      has found exactly the rows reachable from the Case. */
  method Descendants(db: Db, id: string, budget: nat) returns (r: Answer, ghost root: Row)
    requires Identified(db)
    ensures r.Invalid? <==> !(1 <= |id| <= 128 && 1 <= budget <= 10000)
    ensures r.NotFound? <==> !r.Invalid? && !exists k :: IsCase(db, id, k)
    ensures r.Inventory? ==>
              && root.table == "cases" && IsCase(db, id, root.key)
              && (r.truncated <==> |Closure(db, root)| > budget)
              && r.rows == |RowsOf(r.tables)| && RowsOf(r.tables) <= Closure(db, root)
              && (if r.truncated then r.rows == budget else RowsOf(r.tables) == Closure(db, root))
  {
    root := Row("", []);
    if !(1 <= |id| <= 128 && 1 <= budget <= 10000) { return Invalid, root; }
    if "cases" !in db.rows || !exists k | k in db.rows["cases"] :: IsCase(db, id, k) { return NotFound, root; }
    var key :| key in db.rows["cases"] && IsCase(db, id, key);
    root := Row("cases", key);
    var start: Ids := map["cases" := {key}];
    assert RowsOf(start) == {root};
    assert root in Closure(db, root) by { assert Path(db, [root]); }
    var g := Search(db, root, budget, start);
    return Inventory(g.reached, g.count, g.truncated), root;
  }

  method Search(db: Db, ghost root: Row, budget: nat, start: Ids) returns (g: Found)
    requires Identified(db) && RowsOf(start) == {root} && root in Closure(db, root) && budget >= 1 && NonEmpty(start)
    ensures Sound(db, root, budget, g)
    ensures g.truncated <==> |Closure(db, root)| > budget
    ensures !g.truncated ==> RowsOf(g.reached) == Closure(db, root)
  {
    var frontier := start;
    g := Found(start, map[], 1, false);
    assert RowsOf(map[]) == {};
    hide Closure, TableDone, Refers, Path;
    while frontier != map[] && !g.truncated
      invariant Sound(db, root, budget, g) && NonEmpty(frontier)
      invariant RowsOf(frontier) <= RowsOf(g.reached)
      invariant !g.truncated ==> Followed(db, g, frontier)
      decreases budget - g.count, |frontier|
    {
      StoredTables(db, root, frontier);
      forall t | t in frontier ensures Known(db, root, t, frontier[t]) { FrontierKnown(db, root, frontier, t); }
      g := Round(db, root, budget, frontier, g);
      frontier := g.following;
      if frontier != map[] { RowsExist(frontier); }
    }
    if !g.truncated {
      assert RowsOf(frontier) == {};
      ClosedIsClosure(db, root, RowsOf(g.reached));
    } else {
      MoreThan(RowsOf(g.reached), Closure(db, root));
    }
  }

  // One turn of the outer loop.
  method Round(db: Db, ghost root: Row, budget: nat, frontier: Ids, before: Found) returns (g: Found)
    requires forall t | t in frontier :: t in db.width && db.width[t] > 0
    requires Sound(db, root, budget, before) && !before.truncated && Followed(db, before, frontier)
    requires forall t | t in frontier :: Known(db, root, t, frontier[t])
    ensures Sound(db, root, budget, g) && NonEmpty(g.following) && RowsOf(g.following) <= RowsOf(g.reached)
    ensures !g.truncated ==> Followed(db, g, g.following)
    ensures g.count == before.count + |RowsOf(g.following)|
  {
    var f := before.(following := map[]);
    hide Closure, TableDone, Refers, Path, Known, Followed;
    assert Followed(db, f, frontier) by { SameFollowed(db, before, f, frontier); }
    g := ScanFrontier(db, root, budget, frontier, f);
    GrowthCounts(f, g);
    if !g.truncated { RoundFollows(db, f, g, frontier); }
    assert RowsOf(map[]) == {};
    assert RowsOf(g.following) <= RowsOf(g.reached) by { hide RowsOf; }
  }

  lemma SameFollowed(db: Db, f: Found, g: Found, frontier: Ids)
    requires Followed(db, f, frontier) && g.reached == f.reached
    ensures Followed(db, g, frontier)
  {}

  lemma RowsExist(m: Ids)
    requires NonEmpty(m) && m != map[]
    ensures RowsOf(m) != {}
  {
    var t :| t in m;
    var k :| k in m[t];
    assert Row(t, k) in RowsOf(m);
  }

  lemma MoreThan(a: set<Row>, b: set<Row>)
    requires a <= b && a != b
    ensures |a| < |b|
  {
    var x :| x in b && x !in a;
    assert a <= b - {x};
    Smaller(a, b - {x});
  }

  lemma {:induction false} Smaller(a: set<Row>, b: set<Row>)
    requires a <= b
    ensures |a| <= |b|
    decreases a
  {
    if a != {} {
      var x :| x in a;
      Smaller(a - {x}, b - {x});
    }
  }
}
