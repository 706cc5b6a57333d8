/**
 The read-only report of stored agreement objects that no database row points at: which objects are live,
 what class each one falls in, and what the report says of each group of orphans.
 */
module OrphanReport {
  import opened Text
  import opened Calendar
  import opened TimeOrder

  // ---- the listing --------------------------------------------------------------

  /** One version of a key; a key deleted last has a delete marker as its latest version. */
  datatype Version = Version(key: string, size: nat, modified: int, latest: bool) | DeleteMarker(key: string, latest: bool)

  datatype Obj = Obj(key: string, size: nat, modified: int)

  predicate IsLive(v: Version) { v.Version? && v.latest }

  function Live(versions: seq<Version>): seq<Obj> {
    if versions == [] then []
    else
      var v := versions[|versions| - 1];
      Live(versions[..|versions| - 1]) + if IsLive(v) then [Obj(v.key, v.size, v.modified)] else []
  }

  /** The pages of the listing, walked in order. */
  method ListLiveObjects(pages: seq<seq<Version>>) returns (objects: seq<Obj>)
    ensures objects == Live(Flat(pages))
  {
    objects := [];
    for i := 0 to |pages|
      invariant objects == Live(Flat(pages[..i]))
    {
      var page := pages[i];
      assert pages[..i + 1][..i] == pages[..i];
      ghost var sofar := Flat(pages[..i]);
      assert sofar + page[..0] == sofar;
      for j := 0 to |page|
        invariant objects == Live(sofar + page[..j])
      {
        assert sofar + page[..j + 1] == (sofar + page[..j]) + [page[j]];
        assert (sofar + page[..j + 1])[..|sofar| + j] == sofar + page[..j];
        if page[j].Version? && page[j].latest {
          objects := objects + [Obj(page[j].key, page[j].size, page[j].modified)];
        }
      }
      assert page[..|page|] == page;
    }
    assert pages[..|pages|] == pages;
  }

  function Flat(pages: seq<seq<Version>>): seq<Version> {
    if pages == [] then [] else Flat(pages[..|pages| - 1]) + pages[|pages| - 1]
  }

  /** Each key has at most one latest version. */
  ghost predicate OneLatest(versions: seq<Version>) {
    forall i, j :: 0 <= i < j < |versions| && versions[i].latest && versions[j].latest ==> versions[i].key != versions[j].key
  }

  ghost predicate DistinctKeys(objects: seq<Obj>) {
    forall i, j :: 0 <= i < j < |objects| ==> objects[i].key != objects[j].key
  }

  lemma {:induction false} LiveMembers(versions: seq<Version>)
    ensures forall o: Obj :: o in Live(versions) <==> Version.Version(o.key, o.size, o.modified, true) in versions
  {
    if versions != [] {
      var n := |versions| - 1;
      assert versions == versions[..n] + [versions[n]];
      LiveMembers(versions[..n]);
    }
  }

  lemma {:induction false} LiveDistinct(versions: seq<Version>)
    requires OneLatest(versions)
    ensures DistinctKeys(Live(versions))
  {
    if versions != [] {
      var n := |versions| - 1;
      var v := versions[n];
      LiveDistinct(versions[..n]);
      LiveMembers(versions[..n]);
      if IsLive(v) {
        forall o | o in Live(versions[..n]) ensures o.key != v.key {
          var k :| 0 <= k < n && versions[..n][k] == Version.Version(o.key, o.size, o.modified, true);
          assert versions[k].latest;
        }
      }
    }
  }

  /** The objects are exactly the latest versions that are not delete markers, each key once. */
  lemma LiveExactly(versions: seq<Version>)
    requires OneLatest(versions)
    ensures DistinctKeys(Live(versions))
    ensures forall o: Obj :: o in Live(versions) <==> Version.Version(o.key, o.size, o.modified, true) in versions
    ensures forall m: Version :: m in versions && m.DeleteMarker? && m.latest ==> forall o :: o in Live(versions) ==> o.key != m.key
  {
    hide DistinctKeys, Live;
    LiveMembers(versions);
    LiveDistinct(versions);
    forall m: Version, o | m in versions && m.DeleteMarker? && m.latest && o in Live(versions) ensures o.key != m.key {
      var i :| 0 <= i < |versions| && versions[i] == m;
      var j :| 0 <= j < |versions| && versions[j] == Version.Version(o.key, o.size, o.modified, true);
      assert i < j || j < i;
    }
  }

  // ---- classes ------------------------------------------------------------------

  datatype Class = Referenced | Queued | Recent | Orphan

  /** What the database knows, and the instant of the scan. */
  datatype Scan = Scan(referenced: set<string>, queued: set<string>, now: int)

  const MIN_AGE := DAY_MICROS
  const SAMPLE_PER_GROUP := 200

  function Classify(scan: Scan, o: Obj): Class {
    if o.key in scan.referenced then Referenced
    else if o.key in scan.queued then Queued
    else if o.modified > scan.now - MIN_AGE then Recent
    else Orphan
  }

  function OfClass(scan: Scan, c: Class, objects: seq<Obj>): (r: seq<Obj>)
    ensures forall o :: o in r <==> o in objects && Classify(scan, o) == c
  {
    if objects == [] then []
    else
      var n := |objects| - 1;
      assert objects == objects[..n] + [objects[n]];
      OfClass(scan, c, objects[..n]) + if Classify(scan, objects[n]) == c then [objects[n]] else []
  }

  function TopLevel(key: string): string {
    if exists i :: 0 <= i < |key| && key[i] == '/' then UpToSlash(key) else "(bucket root)"
  }

  function UpToSlash(key: string): (head: string)
    requires exists i :: 0 <= i < |key| && key[i] == '/'
    ensures head + "/" <= key && forall i :: 0 <= i < |head| ==> head[i] != '/'
  {
    if key[0] == '/' then ""
    else
      assert exists i :: 0 <= i < |key[1..]| && key[1..][i] == '/' by {
        var i :| 0 <= i < |key| && key[i] == '/';
        assert key[1..][i - 1] == '/';
      }
      [key[0]] + UpToSlash(key[1..])
  }

  /** The objects of a group, in listing order. */
  function Members(name: string, orphans: seq<Obj>): (r: seq<Obj>)
    ensures forall o :: o in r <==> o in orphans && TopLevel(o.key) == name
  {
    if orphans == [] then []
    else
      var n := |orphans| - 1;
      assert orphans == orphans[..n] + [orphans[n]];
      Members(name, orphans[..n]) + if TopLevel(orphans[n].key) == name then [orphans[n]] else []
  }

  function Bytes(objects: seq<Obj>): nat {
    if objects == [] then 0 else Bytes(objects[..|objects| - 1]) + objects[|objects| - 1].size
  }

  // ---- rows and sorting ---------------------------------------------------------

  datatype Row = Row(key: string, size: nat, lastModified: string)

  ghost predicate ValidTimes(objects: seq<Obj>) { forall o :: o in objects ==> ValidInstant(o.modified) }

  function RowOf(o: Obj): Row
    requires ValidInstant(o.modified)
  {
    Row(o.key, o.size, IsoZ(o.modified))
  }

  function Rows(objects: seq<Obj>): (rows: seq<Row>)
    requires ValidTimes(objects)
    ensures |rows| == |objects| && forall i :: 0 <= i < |rows| ==> rows[i] == RowOf(objects[i])
  {
    seq(|objects|, i requires 0 <= i < |objects| => assert objects[i] in objects; RowOf(objects[i]))
  }

  /** `row` after every row whose key is not greater. */
  function InsertRow(sorted: seq<Row>, row: Row): seq<Row> {
    if sorted == [] || Le(sorted[|sorted| - 1].key, row.key) then sorted + [row]
    else InsertRow(sorted[..|sorted| - 1], row) + [sorted[|sorted| - 1]]
  }

  /** The stable sort by key. */
  function SortRows(rows: seq<Row>): seq<Row> {
    if rows == [] then [] else InsertRow(SortRows(rows[..|rows| - 1]), rows[|rows| - 1])
  }

  ghost predicate SortedRows(rows: seq<Row>) {
    forall i, j :: 0 <= i < j < |rows| ==> Le(rows[i].key, rows[j].key)
  }

  function WithKey(rows: seq<Row>, key: string): seq<Row> {
    if rows == [] then []
    else WithKey(rows[..|rows| - 1], key) + if rows[|rows| - 1].key == key then [rows[|rows| - 1]] else []
  }

  lemma {:induction false} InsertRowKeeps(sorted: seq<Row>, row: Row)
    ensures multiset(InsertRow(sorted, row)) == multiset(sorted) + multiset{row}
  {
    if sorted != [] && !Le(sorted[|sorted| - 1].key, row.key) {
      assert sorted == sorted[..|sorted| - 1] + [sorted[|sorted| - 1]];
      InsertRowKeeps(sorted[..|sorted| - 1], row);
    }
  }

  lemma InsertRowMembers(sorted: seq<Row>, row: Row)
    ensures forall r :: r in InsertRow(sorted, row) ==> r in sorted || r == row
  {
    InsertRowKeeps(sorted, row);
    forall r | r in InsertRow(sorted, row) ensures r in sorted || r == row {
      assert r in multiset(InsertRow(sorted, row));
    }
  }

  ghost predicate AtMost(rows: seq<Row>, key: string) { forall i :: 0 <= i < |rows| ==> Le(rows[i].key, key) }

  lemma SortedSnoc(rows: seq<Row>, last: Row)
    requires SortedRows(rows) && AtMost(rows, last.key)
    ensures SortedRows(rows + [last])
  {
  }

  lemma AtMostLast(rows: seq<Row>, key: string)
    requires SortedRows(rows) && (rows == [] || Le(rows[|rows| - 1].key, key))
    ensures AtMost(rows, key)
  {
    forall i | 0 <= i < |rows| ensures Le(rows[i].key, key) {
      LeTotal(rows[i].key, rows[i].key);
      LeTransitive(rows[i].key, rows[|rows| - 1].key, key);
    }
  }

  lemma {:induction false} InsertRowSorts(sorted: seq<Row>, row: Row)
    requires SortedRows(sorted)
    ensures SortedRows(InsertRow(sorted, row))
  {
    hide Le;
    if sorted == [] || Le(sorted[|sorted| - 1].key, row.key) {
      AtMostLast(sorted, row.key);
      SortedSnoc(sorted, row);
    } else {
      var init, last := sorted[..|sorted| - 1], sorted[|sorted| - 1];
      assert SortedRows(init) && AtMost(init, last.key);
      InsertRowSorts(init, row);
      LeTotal(last.key, row.key);
      InsertRowMembers(init, row);
      forall i | 0 <= i < |InsertRow(init, row)| ensures Le(InsertRow(init, row)[i].key, last.key) {
        assert InsertRow(init, row)[i] in InsertRow(init, row);
      }
      SortedSnoc(InsertRow(init, row), last);
    }
  }

  lemma WithKeySnoc(rows: seq<Row>, last: Row, key: string)
    ensures WithKey(rows + [last], key) == WithKey(rows, key) + if last.key == key then [last] else []
  {
    assert (rows + [last])[..|rows|] == rows;
  }

  lemma {:induction false} InsertRowStable(sorted: seq<Row>, row: Row, key: string)
    ensures WithKey(InsertRow(sorted, row), key) == WithKey(sorted, key) + if row.key == key then [row] else []
  {
    hide Le, WithKey;
    if sorted == [] || Le(sorted[|sorted| - 1].key, row.key) {
      WithKeySnoc(sorted, row, key);
    } else {
      var init, last := sorted[..|sorted| - 1], sorted[|sorted| - 1];
      assert init + [last] == sorted && InsertRow(sorted, row) == InsertRow(init, row) + [last];
      InsertRowStable(init, row, key);
      LeTotal(last.key, row.key);
      WithKeySnoc(InsertRow(init, row), last, key);
      WithKeySnoc(init, last, key);
    }
  }

  /** `SortRows` is the stable sort: sorted, a rearrangement, and rows of one key keep their order. */
  lemma {:induction false} SortRowsSorts(rows: seq<Row>)
    ensures SortedRows(SortRows(rows)) && multiset(SortRows(rows)) == multiset(rows)
    ensures forall key :: WithKey(SortRows(rows), key) == WithKey(rows, key)
  {
    hide InsertRow, SortedRows;
    if rows == [] {
      assert SortedRows(SortRows([])) by { NothingSorted(); }
    } else {
      var n := |rows| - 1;
      assert rows == rows[..n] + [rows[n]];
      SortRowsSorts(rows[..n]);
      InsertRowSorts(SortRows(rows[..n]), rows[n]);
      InsertRowKeeps(SortRows(rows[..n]), rows[n]);
      forall key ensures WithKey(SortRows(rows), key) == WithKey(rows, key) {
        InsertRowStable(SortRows(rows[..n]), rows[n], key);
      }
    }
  }

  lemma NothingSorted() ensures SortedRows([]) {}

  // ---- groups and the report ----------------------------------------------------

  datatype Group = Group(count: nat, bytes: nat, oldest: Option<string>, newest: Option<string>, keys: seq<Row>)

  datatype Report = Report(
    live: nat, referenced: nat, recent: nat, queued: seq<Row>, orphans: nat, orphanBytes: nat, groups: map<string, Group>)

  function Smaller(a: Option<string>, b: string): string { if a.Some? && Le(a.value, b) then a.value else b }

  function Larger(a: Option<string>, b: string): string { if a.Some? && Le(b, a.value) then a.value else b }

  /** `t` is the text of one of the objects' times and no other text is before it. */
  ghost predicate FirstText(t: Option<string>, objects: seq<Obj>)
    requires ValidTimes(objects)
  {
    if t.None? then objects == []
    else (exists o :: o in objects && IsoZ(o.modified) == t.value) && forall o :: o in objects ==> Le(t.value, IsoZ(o.modified))
  }

  ghost predicate LastText(t: Option<string>, objects: seq<Obj>)
    requires ValidTimes(objects)
  {
    if t.None? then objects == []
    else (exists o :: o in objects && IsoZ(o.modified) == t.value) && forall o :: o in objects ==> Le(IsoZ(o.modified), t.value)
  }

  function Sample(members: seq<Obj>): (r: seq<Obj>)
    ensures r <= members && |r| == if |members| < SAMPLE_PER_GROUP then |members| else SAMPLE_PER_GROUP
  {
    if |members| < SAMPLE_PER_GROUP then members else members[..SAMPLE_PER_GROUP]
  }

  /** The totals of a group; its rows are `keys`. */
  ghost predicate Describes(g: Group, members: seq<Obj>, keys: seq<Row>) {
    && ValidTimes(members) && g.count == |members| && g.bytes == Bytes(members)
    && FirstText(g.oldest, members) && LastText(g.newest, members) && g.keys == keys
  }

  function Sampled(members: seq<Obj>): seq<Row>
    requires ValidTimes(members)
  {
    assert forall o :: o in Sample(members) ==> o in members;
    Rows(Sample(members))
  }

  function Added(g: Group, o: Obj): Group
    requires ValidInstant(o.modified)
  {
    var row := RowOf(o);
    Group(g.count + 1, g.bytes + o.size, Some(Smaller(g.oldest, row.lastModified)), Some(Larger(g.newest, row.lastModified)),
          if |g.keys| < SAMPLE_PER_GROUP then g.keys + [row] else g.keys)
  }

  const EMPTY := Group(0, 0, None, None, [])

  lemma AddedTexts(g: Group, members: seq<Obj>, o: Obj)
    requires ValidInstant(o.modified) && ValidTimes(members) && FirstText(g.oldest, members) && LastText(g.newest, members)
    ensures ValidTimes(members + [o])
    ensures FirstText(Added(g, o).oldest, members + [o]) && LastText(Added(g, o).newest, members + [o])
  {
    hide IsoZ, Le;
    var text, all := IsoZ(o.modified), members + [o];
    assert o in all;
    LeTotal(text, text);
    if g.oldest.Some? {
      LeTotal(g.oldest.value, text);
      LeTotal(g.newest.value, text);
      forall m | m in members ensures Le(Smaller(g.oldest, text), IsoZ(m.modified)) && Le(IsoZ(m.modified), Larger(g.newest, text)) {
        if !Le(g.oldest.value, text) { LeTransitive(text, g.oldest.value, IsoZ(m.modified)); }
        if !Le(text, g.newest.value) { LeTransitive(IsoZ(m.modified), g.newest.value, text); }
      }
      var first :| first in members && IsoZ(first.modified) == g.oldest.value;
      var last :| last in members && IsoZ(last.modified) == g.newest.value;
      assert first in all && last in all;
    }
  }

  /** A group in the making: its rows are still in listing order. */
  ghost predicate Collects(g: Group, members: seq<Obj>) {
    ValidTimes(members) && Describes(g, members, Sampled(members))
  }

  lemma AddedCollects(g: Group, members: seq<Obj>, o: Obj)
    requires ValidInstant(o.modified) && Collects(g, members)
    ensures Collects(Added(g, o), members + [o])
  {
    hide IsoZ, Le, FirstText, LastText;
    AddedTexts(g, members, o);
    assert (members + [o])[..|members|] == members;
    assert Added(g, o).keys == Sampled(members + [o]);
  }

  /** The groups hold exactly the orphans' top-level names, each group its members. */
  ghost predicate Grouped(groups: map<string, Group>, orphans: seq<Obj>) {
    && (forall name :: name in groups <==> Members(name, orphans) != [])
    && forall name :: name in groups ==> Collects(groups[name], Members(name, orphans))
  }

  ghost predicate Listed(order: seq<string>, groups: map<string, Group>) {
    && (forall name :: name in order <==> name in groups)
    && forall i, j :: 0 <= i < j < |order| ==> order[i] != order[j]
  }

  lemma MembersSnoc(name: string, orphans: seq<Obj>, o: Obj)
    ensures Members(name, orphans + [o]) == if TopLevel(o.key) == name then Members(name, orphans) + [o] else Members(name, orphans)
  {
    assert (orphans + [o])[..|orphans|] == orphans;
  }

  /** One more orphan goes into its group, created when missing. */
  lemma GroupedSnoc(groups: map<string, Group>, orphans: seq<Obj>, o: Obj)
    requires Grouped(groups, orphans) && ValidInstant(o.modified)
    ensures var name := TopLevel(o.key);
      Grouped(groups[name := Added(if name in groups then groups[name] else EMPTY, o)], orphans + [o])
  {
    hide TopLevel, Collects, Added, Members;
    var name := TopLevel(o.key);
    var g := if name in groups then groups[name] else EMPTY;
    EmptyCollects();
    AddedCollects(g, Members(name, orphans), o);
    forall other
      ensures Members(other, orphans + [o]) == if name == other then Members(other, orphans) + [o] else Members(other, orphans)
    {
      MembersSnoc(other, orphans, o);
    }
  }

  lemma EmptyCollects()
    ensures Collects(EMPTY, [])
  {
  }

  /** What a report of `objects` must say. */
  ghost predicate Reports(scan: Scan, objects: seq<Obj>, r: Report) {
    var queued, orphans := OfClass(scan, Queued, objects), OfClass(scan, Orphan, objects);
    && r.live == |objects| && r.referenced == |OfClass(scan, Referenced, objects)|
    && r.recent == |OfClass(scan, Recent, objects)|
    && ValidTimes(queued) && r.queued == SortRows(Rows(queued))
    && ValidTimes(orphans) && r.orphans == |orphans| && r.orphanBytes == Bytes(orphans)
    && (forall name :: name in r.groups <==> Members(name, orphans) != [])
    && forall name :: name in r.groups ==>
         && ValidTimes(Members(name, orphans))
         && Describes(r.groups[name], Members(name, orphans), SortRows(Sampled(Members(name, orphans))))
  }

  lemma OfClassSnoc(scan: Scan, c: Class, objects: seq<Obj>, o: Obj)
    ensures OfClass(scan, c, objects + [o]) == if Classify(scan, o) == c then OfClass(scan, c, objects) + [o] else OfClass(scan, c, objects)
  {
    assert (objects + [o])[..|objects|] == objects;
  }

  lemma RowsSnoc(objects: seq<Obj>, o: Obj)
    requires ValidTimes(objects) && ValidInstant(o.modified)
    ensures ValidTimes(objects + [o]) && Rows(objects + [o]) == Rows(objects) + [RowOf(o)]
  {
    hide IsoZ;
  }

  function SumCounts(order: seq<string>, groups: map<string, Group>): nat
    requires forall name :: name in order ==> name in groups
  {
    if order == [] then 0
    else
      assert forall name :: name in order[..|order| - 1] ==> name in order;
      SumCounts(order[..|order| - 1], groups) + groups[order[|order| - 1]].count
  }

  function SumBytes(order: seq<string>, groups: map<string, Group>): nat
    requires forall name :: name in order ==> name in groups
  {
    if order == [] then 0
    else
      assert forall name :: name in order[..|order| - 1] ==> name in order;
      SumBytes(order[..|order| - 1], groups) + groups[order[|order| - 1]].bytes
  }

  // ---- adding up ----------------------------------------------------------------

  ghost predicate Distinct(order: seq<string>) { forall i, j :: 0 <= i < j < |order| ==> order[i] != order[j] }

  function MemberCount(order: seq<string>, orphans: seq<Obj>): nat {
    if order == [] then 0 else MemberCount(order[..|order| - 1], orphans) + |Members(order[|order| - 1], orphans)|
  }

  function MemberBytes(order: seq<string>, orphans: seq<Obj>): nat {
    if order == [] then 0 else MemberBytes(order[..|order| - 1], orphans) + Bytes(Members(order[|order| - 1], orphans))
  }

  lemma BytesSnoc(objects: seq<Obj>, o: Obj)
    ensures Bytes(objects + [o]) == Bytes(objects) + o.size
  {
    assert (objects + [o])[..|objects|] == objects;
  }

  /** One more orphan counts in exactly one of distinct names. */
  lemma {:induction false} CountsOnce(order: seq<string>, orphans: seq<Obj>, o: Obj)
    requires Distinct(order)
    ensures MemberCount(order, orphans + [o]) == MemberCount(order, orphans) + if TopLevel(o.key) in order then 1 else 0
    ensures MemberBytes(order, orphans + [o]) == MemberBytes(order, orphans) + if TopLevel(o.key) in order then o.size else 0
  {
    hide TopLevel, Members, Bytes;
    if order != [] {
      var init, last := order[..|order| - 1], order[|order| - 1];
      assert order == init + [last];
      CountsOnce(init, orphans, o);
      MembersSnoc(last, orphans, o);
      BytesSnoc(Members(last, orphans), o);
    }
  }

  lemma {:induction false} NoMembers(order: seq<string>)
    ensures MemberCount(order, []) == 0 && MemberBytes(order, []) == 0
  {
    if order != [] { NoMembers(order[..|order| - 1]); }
  }

  /** Distinct names that cover the orphans share them out without loss. */
  lemma {:induction false} NamesAddUp(order: seq<string>, orphans: seq<Obj>)
    requires Distinct(order) && forall o :: o in orphans ==> TopLevel(o.key) in order
    ensures MemberCount(order, orphans) == |orphans| && MemberBytes(order, orphans) == Bytes(orphans)
  {
    hide TopLevel, MemberCount, MemberBytes;
    if orphans == [] {
      NoMembers(order);
    } else {
      var init, last := orphans[..|orphans| - 1], orphans[|orphans| - 1];
      assert orphans == init + [last];
      NamesAddUp(order, init);
      CountsOnce(order, init, last);
    }
  }

  /** The groups' counts and bytes add up to those of all orphans. */
  lemma {:induction false} SumsAgree(order: seq<string>, groups: map<string, Group>, orphans: seq<Obj>)
    requires forall name :: name in order ==> name in groups
    requires forall name :: name in groups ==>
      groups[name].count == |Members(name, orphans)| && groups[name].bytes == Bytes(Members(name, orphans))
    ensures SumCounts(order, groups) == MemberCount(order, orphans) && SumBytes(order, groups) == MemberBytes(order, orphans)
  {
    hide Members, Bytes;
    if order != [] {
      assert order == order[..|order| - 1] + [order[|order| - 1]];
      SumsAgree(order[..|order| - 1], groups, orphans);
    }
  }

  lemma GroupsCover(order: seq<string>, groups: map<string, Group>, orphans: seq<Obj>)
    requires Grouped(groups, orphans) && Listed(order, groups)
    ensures Distinct(order) && forall o :: o in orphans ==> TopLevel(o.key) in order
    ensures forall name :: name in groups ==>
      groups[name].count == |Members(name, orphans)| && groups[name].bytes == Bytes(Members(name, orphans))
  {
    hide TopLevel;
    forall o | o in orphans ensures TopLevel(o.key) in order { assert o in Members(TopLevel(o.key), orphans); }
  }

  // ---- the loop -----------------------------------------------------------------

  method BuildReport(scan: Scan, objects: seq<Obj>) returns (report: Report)
    requires ValidTimes(objects)
    ensures Reports(scan, objects, report)
  {
    hide Grouped, Listed, Classify, TopLevel, Added, RowOf, Members, Rows, SortRows, Sampled;
    var groups: map<string, Group>, order: seq<string> := map[], [];
    var live, linked, recent, queuedRows: seq<Row> := 0, 0, 0, [];
    NothingGrouped();
    for i := 0 to |objects|
      invariant live == i && linked == |OfClass(scan, Referenced, objects[..i])|
      invariant recent == |OfClass(scan, Recent, objects[..i])|
      invariant ValidTimes(OfClass(scan, Queued, objects[..i])) && queuedRows == Rows(OfClass(scan, Queued, objects[..i]))
      invariant Grouped(groups, OfClass(scan, Orphan, objects[..i])) && Listed(order, groups)
    {
      var obj := objects[i];
      assert objects[..i + 1] == objects[..i] + [obj];
      ClassesSnoc(scan, objects[..i], obj);
      live := live + 1;
      match Classify(scan, obj)
      case Referenced => linked := linked + 1;
      case Queued =>
        RowsSnoc(OfClass(scan, Queued, objects[..i]), obj);
        queuedRows := queuedRows + [RowOf(obj)];
      case Recent => recent := recent + 1;
      case Orphan =>
        GroupedSnoc(groups, OfClass(scan, Orphan, objects[..i]), obj);
        var name := TopLevel(obj.key);
        ListedAdd(order, groups, name, Added(if name in groups then groups[name] else EMPTY, obj));
        if name !in groups { order := order + [name]; }
        groups := groups[name := Added(if name in groups then groups[name] else EMPTY, obj)];
    }
    assert objects[..|objects|] == objects;
    ghost var collected := groups;
    ListedOnly(order, groups);
    groups := SortKeys(order, groups);
    var orphans, bytes := AddUp(order, groups);
    report := Report(live, linked, recent, SortRows(queuedRows), orphans, bytes, groups);
    Assembled(scan, objects, order, collected, report);
  }

  lemma NothingGrouped()
    ensures Grouped(map[], []) && Listed([], map[]) && Rows([]) == []
  {
  }

  lemma ListedOnly(order: seq<string>, groups: map<string, Group>)
    requires Listed(order, groups)
    ensures forall name :: name in order ==> name in groups
  {
  }

  lemma ListedAdd(order: seq<string>, groups: map<string, Group>, name: string, g: Group)
    requires Listed(order, groups)
    ensures Listed(if name in groups then order else order + [name], groups[name := g])
  {
  }

  lemma ClassesSnoc(scan: Scan, objects: seq<Obj>, o: Obj)
    ensures forall c ::
      OfClass(scan, c, objects + [o]) == if Classify(scan, o) == c then OfClass(scan, c, objects) + [o] else OfClass(scan, c, objects)
  {
    forall c ensures OfClass(scan, c, objects + [o])
         == if Classify(scan, o) == c then OfClass(scan, c, objects) + [o] else OfClass(scan, c, objects)
    {
      OfClassSnoc(scan, c, objects, o);
    }
  }

  /** Sorts the rows of every group in place. */
  method SortKeys(order: seq<string>, collected: map<string, Group>) returns (groups: map<string, Group>)
    requires Listed(order, collected)
    ensures groups.Keys == collected.Keys
    ensures forall name :: name in groups ==> groups[name] == collected[name].(keys := SortRows(collected[name].keys))
  {
    hide SortRows;
    groups := collected;
    for i := 0 to |order|
      invariant groups.Keys == collected.Keys
      invariant forall k :: 0 <= k < i ==> groups[order[k]] == collected[order[k]].(keys := SortRows(collected[order[k]].keys))
      invariant forall k :: i <= k < |order| ==> groups[order[k]] == collected[order[k]]
    {
      groups := groups[order[i] := groups[order[i]].(keys := SortRows(groups[order[i]].keys))];
    }
    forall name | name in groups ensures groups[name] == collected[name].(keys := SortRows(collected[name].keys)) {
      assert name in order;
    }
  }

  method AddUp(order: seq<string>, groups: map<string, Group>) returns (count: nat, bytes: nat)
    requires forall name :: name in order ==> name in groups
    ensures count == SumCounts(order, groups) && bytes == SumBytes(order, groups)
  {
    count, bytes := 0, 0;
    for i := 0 to |order|
      invariant forall name :: name in order[..i] ==> name in groups
      invariant count == SumCounts(order[..i], groups) && bytes == SumBytes(order[..i], groups)
    {
      assert order[..i + 1][..i] == order[..i];
      count, bytes := count + groups[order[i]].count, bytes + groups[order[i]].bytes;
    }
    assert order[..|order|] == order;
  }

  lemma SortedDescribes(g: Group, members: seq<Obj>)
    requires Collects(g, members)
    ensures ValidTimes(members) && Describes(g.(keys := SortRows(g.keys)), members, SortRows(Sampled(members)))
  {
    hide SortRows, Sampled, FirstText, LastText;
  }

  /** The pieces make the report. */
  lemma Assembled(scan: Scan, objects: seq<Obj>, order: seq<string>, collected: map<string, Group>, r: Report)
    requires r.live == |objects| && r.referenced == |OfClass(scan, Referenced, objects)|
    requires r.recent == |OfClass(scan, Recent, objects)|
    requires ValidTimes(objects) && ValidTimes(OfClass(scan, Queued, objects)) && r.queued == SortRows(Rows(OfClass(scan, Queued, objects)))
    requires Grouped(collected, OfClass(scan, Orphan, objects)) && Listed(order, collected)
    requires r.groups.Keys == collected.Keys
    requires forall name :: name in r.groups ==> r.groups[name] == collected[name].(keys := SortRows(collected[name].keys))
    requires forall name :: name in order ==> name in r.groups
    requires r.orphans == SumCounts(order, r.groups) && r.orphanBytes == SumBytes(order, r.groups)
    ensures Reports(scan, objects, r)
  {
    hide Classify, TopLevel, Members, Rows, SortRows, FirstText, LastText, Bytes, Collects, Sampled, Describes;
    var orphans := OfClass(scan, Orphan, objects);
    GroupsCover(order, collected, orphans);
    SumsAgree(order, r.groups, orphans);
    NamesAddUp(order, orphans);
    forall name | name in r.groups
      ensures ValidTimes(Members(name, orphans))
      ensures Describes(r.groups[name], Members(name, orphans), SortRows(Sampled(Members(name, orphans))))
    {
      SortedDescribes(collected[name], Members(name, orphans));
    }
  }

  // ---- what the report guarantees -----------------------------------------------

  /** Every live object is in exactly one class, so the four class sizes add up to the listing. */
  lemma {:induction false} ClassesPartition(scan: Scan, objects: seq<Obj>)
    ensures |OfClass(scan, Referenced, objects)| + |OfClass(scan, Queued, objects)| + |OfClass(scan, Recent, objects)|
          + |OfClass(scan, Orphan, objects)| == |objects|
    ensures multiset(OfClass(scan, Referenced, objects)) + multiset(OfClass(scan, Queued, objects))
          + multiset(OfClass(scan, Recent, objects)) + multiset(OfClass(scan, Orphan, objects)) == multiset(objects)
  {
    hide Classify;
    if objects != [] {
      var n := |objects| - 1;
      assert objects == objects[..n] + [objects[n]];
      ClassesPartition(scan, objects[..n]);
      ClassesSnoc(scan, objects[..n], objects[n]);
    }
  }

  lemma ReportAddsUp(scan: Scan, objects: seq<Obj>, r: Report)
    requires Reports(scan, objects, r)
    ensures r.referenced + |r.queued| + r.recent + r.orphans == r.live
  {
    hide Classify, Members, Describes, SortRows, Rows;
    ClassesPartition(scan, objects);
    var queued := OfClass(scan, Queued, objects);
    SortRowsSorts(Rows(queued));
    assert |multiset(SortRows(Rows(queued)))| == |multiset(Rows(queued))|;
    SameLength(queued);
  }

  lemma SameLength(objects: seq<Obj>)
    requires ValidTimes(objects)
    ensures |Rows(objects)| == |objects|
  {
  }

  lemma {:induction false} OfClassCounts(scan: Scan, c: Class, objects: seq<Obj>, o: Obj)
    ensures multiset(OfClass(scan, c, objects))[o] == if Classify(scan, o) == c then multiset(objects)[o] else 0
  {
    hide Classify;
    if objects != [] {
      var n := |objects| - 1;
      assert objects == objects[..n] + [objects[n]];
      OfClassCounts(scan, c, objects[..n], o);
      OfClassSnoc(scan, c, objects[..n], objects[n]);
    }
  }

  lemma {:induction false} MembersCounts(name: string, orphans: seq<Obj>, o: Obj)
    ensures multiset(Members(name, orphans))[o] == if TopLevel(o.key) == name then multiset(orphans)[o] else 0
  {
    hide TopLevel;
    if orphans != [] {
      var n := |orphans| - 1;
      assert orphans == orphans[..n] + [orphans[n]];
      MembersCounts(name, orphans[..n], o);
      MembersSnoc(name, orphans[..n], orphans[n]);
    }
  }

  ghost predicate Reordered(a: seq<Obj>, b: seq<Obj>) { multiset(a) == multiset(b) }

  lemma OfClassReordered(scan: Scan, c: Class, a: seq<Obj>, b: seq<Obj>)
    requires Reordered(a, b)
    ensures Reordered(OfClass(scan, c, a), OfClass(scan, c, b))
  {
    forall o ensures multiset(OfClass(scan, c, a))[o] == multiset(OfClass(scan, c, b))[o] {
      OfClassCounts(scan, c, a, o);
      OfClassCounts(scan, c, b, o);
    }
  }

  lemma MembersReordered(name: string, a: seq<Obj>, b: seq<Obj>)
    requires Reordered(a, b)
    ensures Reordered(Members(name, a), Members(name, b))
  {
    forall o ensures multiset(Members(name, a))[o] == multiset(Members(name, b))[o] {
      MembersCounts(name, a, o);
      MembersCounts(name, b, o);
    }
  }

  lemma ReorderedSize(a: seq<Obj>, b: seq<Obj>)
    requires Reordered(a, b)
    ensures |a| == |b| && forall o :: o in a <==> o in b
  {
    assert |multiset(a)| == |a| && |multiset(b)| == |b|;
    forall o ensures o in a <==> o in b { assert o in multiset(a) <==> o in multiset(b); }
  }

  lemma {:induction false} BytesSplit(a: seq<Obj>, b: seq<Obj>)
    ensures Bytes(a + b) == Bytes(a) + Bytes(b)
  {
    if b == [] {
      assert a + b == a;
    } else {
      var n := |b| - 1;
      assert (a + b)[..|a| + n] == a + b[..n];
      BytesSplit(a, b[..n]);
    }
  }

  lemma Cancel<T>(m: multiset<T>, n: multiset<T>, x: T)
    requires m + multiset{x} == n + multiset{x}
    ensures m == n
  {
    assert m == m + multiset{x} - multiset{x} && n == n + multiset{x} - multiset{x};
  }

  /** A listing without its object `i`. */
  function Without(objects: seq<Obj>, i: nat): seq<Obj>
    requires i < |objects|
  {
    objects[..i] + objects[i + 1..]
  }

  lemma WithoutKeeps(objects: seq<Obj>, i: nat)
    requires i < |objects|
    ensures multiset(objects) == multiset(Without(objects, i)) + multiset{objects[i]}
  {
    assert objects == objects[..i] + [objects[i]] + objects[i + 1..];
  }

  lemma BytesWithout(objects: seq<Obj>, i: nat)
    requires i < |objects|
    ensures Bytes(objects) == Bytes(Without(objects, i)) + objects[i].size
  {
    hide Bytes;
    var before, after := objects[..i], objects[i + 1..];
    BytesSplit(before, after);
    BytesSnoc(before, objects[i]);
    BytesSplit(before + [objects[i]], after);
    assert before + [objects[i]] + after == objects;
  }

  /** Two orders of one non-empty listing, each without the last object of the first, are orders of one listing. */
  lemma ReorderedWithout(a: seq<Obj>, b: seq<Obj>) returns (i: nat)
    requires Reordered(a, b) && a != []
    ensures i < |b| && b[i] == a[|a| - 1] && Reordered(Without(a, |a| - 1), Without(b, i)) && |Without(a, |a| - 1)| < |a|
  {
    hide Without;
    var last := a[|a| - 1];
    assert last in multiset(a);
    i :| 0 <= i < |b| && b[i] == last;
    WithoutKeeps(a, |a| - 1);
    WithoutKeeps(b, i);
    Cancel(multiset(Without(a, |a| - 1)), multiset(Without(b, i)), last);
    assert |multiset(a)| == |a| && |multiset(Without(a, |a| - 1))| == |Without(a, |a| - 1)|;
  }

  lemma {:induction false} BytesReordered(a: seq<Obj>, b: seq<Obj>)
    requires Reordered(a, b)
    ensures Bytes(a) == Bytes(b)
    decreases |a|
  {
    hide Bytes, Without;
    ReorderedSize(a, b);
    if a == [] {
      assert b == [];
    } else {
      var i := ReorderedWithout(a, b);
      BytesWithout(a, |a| - 1);
      BytesWithout(b, i);
      BytesReordered(Without(a, |a| - 1), Without(b, i));
    }
  }

  lemma TextsReordered(a: seq<Obj>, b: seq<Obj>, s: Option<string>, t: Option<string>)
    requires Reordered(a, b) && ValidTimes(a) && ValidTimes(b)
    ensures FirstText(s, a) && FirstText(t, b) ==> s == t
    ensures LastText(s, a) && LastText(t, b) ==> s == t
  {
    hide IsoZ, Le;
    ReorderedSize(a, b);
    if s.Some? && t.Some? { LeTotal(s.value, t.value); }
  }

  /** Same group, whatever the order of the listing, but for which rows are sampled. */
  ghost predicate SameTotals(g: Group, g': Group) {
    g.count == g'.count && g.bytes == g'.bytes && g.oldest == g'.oldest && g.newest == g'.newest
  }

  lemma GroupReordered(a: seq<Obj>, b: seq<Obj>, g: Group, g': Group)
    requires Reordered(a, b) && Describes(g, a, g.keys) && Describes(g', b, g'.keys)
    ensures SameTotals(g, g')
  {
    hide FirstText, LastText, Bytes;
    ReorderedSize(a, b);
    BytesReordered(a, b);
    TextsReordered(a, b, g.oldest, g'.oldest);
    TextsReordered(a, b, g.newest, g'.newest);
  }

  ghost predicate DistinctRows(rows: seq<Row>) {
    forall i, j :: 0 <= i < j < |rows| ==> rows[i].key != rows[j].key
  }

  lemma SameLast(a: seq<Row>, b: seq<Row>)
    requires a != [] && b != [] && multiset(a) == multiset(b) && SortedRows(a) && SortedRows(b) && DistinctRows(a)
    ensures a[|a| - 1] == b[|b| - 1]
  {
    hide Le;
    var x, y := a[|a| - 1], b[|b| - 1];
    assert y in multiset(a) && x in multiset(b);
    var i :| 0 <= i < |a| && a[i] == y;
    var j :| 0 <= j < |b| && b[j] == x;
    LeTotal(x.key, y.key);
  }

  /** Rows of distinct keys sort in one way only. */
  lemma {:induction false} SortUnique(a: seq<Row>, b: seq<Row>)
    requires multiset(a) == multiset(b) && SortedRows(a) && SortedRows(b) && DistinctRows(a)
    ensures a == b
  {
    hide Le;
    assert |multiset(a)| == |a| && |multiset(b)| == |b|;
    if a != [] {
      SameLast(a, b);
      var n := |a| - 1;
      assert a == a[..n] + [a[n]] && b == b[..n] + [b[n]];
      Cancel(multiset(a[..n]), multiset(b[..n]), a[n]);
      SortUnique(a[..n], b[..n]);
    }
  }

  /** Taking one object out takes its row out. */
  lemma RowsWithout(b: seq<Obj>, i: nat)
    requires ValidTimes(b) && i < |b|
    ensures ValidTimes(Without(b, i)) && ValidInstant(b[i].modified)
    ensures multiset(Rows(b)) == multiset(Rows(Without(b, i))) + multiset{RowOf(b[i])}
  {
    hide RowOf;
    var p, q := Rows(b), Rows(Without(b, i));
    assert q[..i] == p[..i] && q[i..] == p[i + 1..];
    assert q == q[..i] + q[i..] && p == p[..i] + [p[i]] + p[i + 1..];
    assert multiset(p) == multiset(p[..i]) + multiset{p[i]} + multiset(p[i + 1..]);
    assert multiset(q) == multiset(q[..i]) + multiset(q[i..]);
  }

  lemma {:induction false} RowsReordered(a: seq<Obj>, b: seq<Obj>)
    requires Reordered(a, b) && ValidTimes(a) && ValidTimes(b)
    ensures multiset(Rows(a)) == multiset(Rows(b))
    decreases |a|
  {
    hide RowOf, Rows, ValidTimes, Without;
    ReorderedSize(a, b);
    if a == [] {
      assert b == [];
    } else {
      var i := ReorderedWithout(a, b);
      RowsWithout(a, |a| - 1);
      RowsWithout(b, i);
      RowsReordered(Without(a, |a| - 1), Without(b, i));
    }
  }

  lemma {:induction false} DistinctSub(name: string, orphans: seq<Obj>)
    requires DistinctKeys(orphans)
    ensures DistinctKeys(Members(name, orphans))
  {
    hide TopLevel;
    if orphans != [] {
      var n := |orphans| - 1;
      assert orphans == orphans[..n] + [orphans[n]];
      DistinctSub(name, orphans[..n]);
      forall o | o in Members(name, orphans[..n]) ensures o.key != orphans[n].key {
        assert o in orphans[..n];
      }
    }
  }

  lemma {:induction false} DistinctClass(scan: Scan, c: Class, objects: seq<Obj>)
    requires DistinctKeys(objects)
    ensures DistinctKeys(OfClass(scan, c, objects))
  {
    hide Classify;
    if objects != [] {
      var n := |objects| - 1;
      assert objects == objects[..n] + [objects[n]];
      DistinctClass(scan, c, objects[..n]);
      forall o | o in OfClass(scan, c, objects[..n]) ensures o.key != objects[n].key {
        assert o in objects[..n];
      }
    }
  }

  lemma SortedRowsReordered(a: seq<Obj>, b: seq<Obj>)
    requires Reordered(a, b) && ValidTimes(a) && ValidTimes(b) && DistinctKeys(a)
    ensures SortRows(Rows(a)) == SortRows(Rows(b))
  {
    hide Le, RowOf, SortRows, IsoZ;
    var p, q := SortRows(Rows(a)), SortRows(Rows(b));
    RowsReordered(a, b);
    SortRowsSorts(Rows(a));
    SortRowsSorts(Rows(b));
    DistinctSorted(a, p);
    SortUnique(p, q);
  }

  /** A rearrangement of rows with distinct keys has distinct keys. */
  lemma DistinctSorted(a: seq<Obj>, rows: seq<Row>)
    requires ValidTimes(a) && DistinctKeys(a) && multiset(rows) == multiset(Rows(a))
    ensures DistinctRows(rows)
  {
    hide IsoZ;
    var all := Rows(a);
    forall i, j | 0 <= i < j < |rows| ensures rows[i].key != rows[j].key {
      OnceEach(all, rows[i]);
      assert rows[i] in multiset(all) && rows[j] in multiset(all);
      if rows[i] == rows[j] {
        TwiceCounts(rows, i, j);
        assert false;
      }
      var k :| 0 <= k < |all| && all[k] == rows[i];
      var l :| 0 <= l < |all| && all[l] == rows[j];
      assert k < l || l < k;
    }
  }

  lemma {:induction false} OnceEach(rows: seq<Row>, row: Row)
    requires DistinctRows(rows)
    ensures multiset(rows)[row] <= 1
  {
    if rows != [] {
      var n := |rows| - 1;
      assert rows == rows[..n] + [rows[n]];
      OnceEach(rows[..n], row);
      if rows[n] == row { assert row !in rows[..n]; }
    }
  }

  lemma TwiceCounts(rows: seq<Row>, i: nat, j: nat)
    requires i < j < |rows| && rows[i] == rows[j]
    ensures multiset(rows)[rows[i]] >= 2
  {
    assert rows == rows[..j] + [rows[j]] + rows[j + 1..];
    assert rows[i] in rows[..j];
  }

  /**
   The totals, the groups, their counts, bytes and oldest and newest do not depend on the order of the
   listing; nor, when each key is listed once, do the queued rows and any group that fits its sample.
   */
  lemma ReportReordered(scan: Scan, a: seq<Obj>, b: seq<Obj>, r: Report, r': Report)
    requires Reordered(a, b) && Reports(scan, a, r) && Reports(scan, b, r')
    ensures r'.live == r.live && r'.referenced == r.referenced && r'.recent == r.recent
    ensures r'.orphans == r.orphans && r'.orphanBytes == r.orphanBytes
    ensures r'.groups.Keys == r.groups.Keys && forall name :: name in r.groups ==> SameTotals(r.groups[name], r'.groups[name])
    ensures DistinctKeys(a) ==> r'.queued == r.queued
    ensures DistinctKeys(a) ==>
      forall name :: name in r.groups && r.groups[name].count <= SAMPLE_PER_GROUP ==> r.groups[name] == r'.groups[name]
  {
    hide Classify, TopLevel, OfClass, Members, Describes, SortRows, Rows, Sampled, Bytes, SameTotals, DistinctKeys;
    forall c ensures |OfClass(scan, c, a)| == |OfClass(scan, c, b)| {
      OfClassReordered(scan, c, a, b);
      ReorderedSize(OfClass(scan, c, a), OfClass(scan, c, b));
    }
    ReorderedSize(a, b);
    var p, q := OfClass(scan, Orphan, a), OfClass(scan, Orphan, b);
    OfClassReordered(scan, Orphan, a, b);
    BytesReordered(p, q);
    if DistinctKeys(a) {
      OfClassReordered(scan, Queued, a, b);
      DistinctClass(scan, Queued, a);
      SortedRowsReordered(OfClass(scan, Queued, a), OfClass(scan, Queued, b));
      DistinctClass(scan, Orphan, a);
    }
    forall name ensures name in r.groups <==> name in r'.groups {
      MembersReordered(name, p, q);
      ReorderedSize(Members(name, p), Members(name, q));
    }
    forall name | name in r.groups
      ensures SameTotals(r.groups[name], r'.groups[name])
      ensures DistinctKeys(a) && r.groups[name].count <= SAMPLE_PER_GROUP ==> r.groups[name] == r'.groups[name]
    {
      MembersReordered(name, p, q);
      if DistinctKeys(a) { DistinctSub(name, p); }
      GroupsReordered(Members(name, p), Members(name, q), r.groups[name], r'.groups[name], DistinctKeys(a));
    }
  }

  lemma GroupsReordered(a: seq<Obj>, b: seq<Obj>, g: Group, g': Group, distinct: bool)
    requires Reordered(a, b) && ValidTimes(a) && ValidTimes(b) && (distinct ==> DistinctKeys(a))
    requires Describes(g, a, SortRows(Sampled(a))) && Describes(g', b, SortRows(Sampled(b)))
    ensures SameTotals(g, g')
    ensures distinct && g.count <= SAMPLE_PER_GROUP ==> g == g'
  {
    hide FirstText, LastText, Bytes, SortRows, Rows, DistinctKeys;
    DescribesTotals(g, a, SortRows(Sampled(a)));
    DescribesTotals(g', b, SortRows(Sampled(b)));
    GroupReordered(a, b, g, g');
    if distinct && g.count <= SAMPLE_PER_GROUP {
      assert Sample(a) == a && Sample(b) == b;
      SortedRowsReordered(a, b);
    }
  }

  lemma DescribesTotals(g: Group, members: seq<Obj>, keys: seq<Row>)
    requires Describes(g, members, keys)
    ensures Describes(g, members, g.keys)
  {
  }

  // ---- oldest and newest --------------------------------------------------------

  ghost predicate Earliest(members: seq<Obj>, o: Obj) { o in members && forall m :: m in members ==> o.modified <= m.modified }

  ghost predicate Latest(members: seq<Obj>, o: Obj) { o in members && forall m :: m in members ==> m.modified <= o.modified }

  /**
   `oldest` is the time of the earliest object if and only if that time has a fraction, or nothing else in
   the group was stored at a fraction of the same second.
   */
  lemma OldestIsEarliestIff(members: seq<Obj>, t: Option<string>, o: Obj)
    requires ValidTimes(members) && FirstText(t, members) && Earliest(members, o)
    ensures t == Some(IsoZ(o.modified)) <==>
      Micros(o.modified) != 0 || forall m :: m in members && SameSecond(o.modified, m.modified) ==> m.modified == o.modified
  {
    hide IsoZ, Le, SameSecond, Micros;
    var first :| first in members && IsoZ(first.modified) == t.value;
    forall m | m in members && o.modified < m.modified
      ensures Before(IsoZ(o.modified), IsoZ(m.modified)) <==> !(SameSecond(o.modified, m.modified) && Micros(o.modified) == 0)
      ensures Before(IsoZ(m.modified), IsoZ(o.modified)) <==> SameSecond(o.modified, m.modified) && Micros(o.modified) == 0
    {
      IsoOrder(o.modified, m.modified);
    }
    LeTotal(IsoZ(first.modified), IsoZ(o.modified));
    forall m | m in members ensures Le(t.value, IsoZ(m.modified)) && (Le(IsoZ(m.modified), t.value) ==> IsoZ(m.modified) == t.value) {
      LeTotal(t.value, IsoZ(m.modified));
    }
  }

  /** `newest` is the time of the latest object if and only if that time is a whole second, or no whole second it is in was used. */
  lemma NewestIsLatestIff(members: seq<Obj>, t: Option<string>, o: Obj)
    requires ValidTimes(members) && LastText(t, members) && Latest(members, o)
    ensures t == Some(IsoZ(o.modified)) <==>
      forall m :: m in members && SameSecond(m.modified, o.modified) && m.modified < o.modified ==> Micros(m.modified) != 0
  {
    hide IsoZ, Le, SameSecond, Micros;
    var last :| last in members && IsoZ(last.modified) == t.value;
    forall m | m in members && m.modified < o.modified
      ensures Before(IsoZ(m.modified), IsoZ(o.modified)) <==> !(SameSecond(m.modified, o.modified) && Micros(m.modified) == 0)
      ensures Before(IsoZ(o.modified), IsoZ(m.modified)) <==> SameSecond(m.modified, o.modified) && Micros(m.modified) == 0
    {
      IsoOrder(m.modified, o.modified);
    }
    forall m | m in members ensures Le(IsoZ(m.modified), t.value) && (Le(t.value, IsoZ(m.modified)) ==> IsoZ(m.modified) == t.value) {
      LeTotal(t.value, IsoZ(m.modified));
    }
  }

  /** In a listing of whole seconds both texts are right. */
  lemma WholeSecondsAreRight(members: seq<Obj>, first: Option<string>, last: Option<string>, early: Obj, late: Obj)
    requires ValidTimes(members) && forall m :: m in members ==> Micros(m.modified) == 0
    requires FirstText(first, members) && Earliest(members, early) && LastText(last, members) && Latest(members, late)
    ensures first == Some(IsoZ(early.modified)) && last == Some(IsoZ(late.modified))
  {
    hide IsoZ, Le;
    forall m, n | m in members && n in members && SameSecond(m.modified, n.modified) ensures m.modified == n.modified {
      WholeSecond(m.modified, n.modified);
    }
    OldestIsEarliestIff(members, first, early);
    NewestIsLatestIff(members, last, late);
  }

  lemma WholeSecond(a: int, b: int)
    requires SameSecond(a, b) && Micros(a) == Micros(b) == 0
    ensures a == b
  {
    assert a == DAY_MICROS * DayOf(a) + a % DAY_MICROS && b == DAY_MICROS * DayOf(b) + b % DAY_MICROS;
  }

  /** Both texts go wrong for two objects half a second apart: oldest and newest change places. */
  lemma HalfSecondSwaps() returns (members: seq<Obj>, early: Obj, late: Obj)
    ensures ValidTimes(members) && Earliest(members, early) && Latest(members, late)
    ensures late.modified - early.modified == 500_000
    ensures FirstText(Some(IsoZ(late.modified)), members) && LastText(Some(IsoZ(early.modified)), members)
    ensures IsoZ(early.modified) != IsoZ(late.modified)
  {
    hide IsoZ, Le;
    early, late := Obj("a/1", 1, DAY_MICROS), Obj("a/2", 1, DAY_MICROS + 500_000);
    members := [early, late];
    assert early in members && late in members;
    assert SameSecond(early.modified, late.modified) && Micros(early.modified) == 0;
    IsoOrder(early.modified, late.modified);
    LeTotal(IsoZ(early.modified), IsoZ(late.modified));
    LeTotal(IsoZ(early.modified), IsoZ(early.modified));
    LeTotal(IsoZ(late.modified), IsoZ(late.modified));
  }

  // ---- samples ------------------------------------------------------------------

  /** A group lists its first 200 orphans of the listing at most, sorted by key. */
  lemma SampleOfGroup(scan: Scan, objects: seq<Obj>, r: Report, name: string)
    requires Reports(scan, objects, r) && name in r.groups
    ensures var members := Members(name, OfClass(scan, Orphan, objects));
      && ValidTimes(Sample(members)) && multiset(r.groups[name].keys) == multiset(Rows(Sample(members)))
      && SortedRows(r.groups[name].keys)
      && |r.groups[name].keys| == if r.groups[name].count < SAMPLE_PER_GROUP then r.groups[name].count else SAMPLE_PER_GROUP
  {
    hide Classify, TopLevel, OfClass, Members, SortRows, Rows, SortedRows, FirstText, LastText;
    var members := Members(name, OfClass(scan, Orphan, objects));
    assert ValidTimes(members);
    SortRowsSorts(Sampled(members));
    assert |multiset(SortRows(Sampled(members)))| == |multiset(Sampled(members))|;
    SameLength(Sample(members));
  }
}
