/** The orphan report read off the listing and the database alone: what is counted, listed and sampled. */
module OrphanLaws {
  import opened Text
  import opened Calendar
  import opened TimeOrder
  import opened OrphanReport

  // ---- the listing --------------------------------------------------------------

  /** The pages are read one after the other, and of each version only a latest object is kept, in place. */
  lemma ListingInOrder(p: seq<seq<Version>>, q: seq<seq<Version>>, page: seq<Version>, v: Version)
    ensures Live(Flat(p + q)) == Live(Flat(p)) + Live(Flat(q))
    ensures Live(Flat([page])) == Live(page) && Live(Flat([])) == []
    ensures Live(page + [v]) == Live(page) + if v.Version? && v.latest then [Obj(v.key, v.size, v.modified)] else []
  {
    FlatJoins(p, q);
    LiveJoins(Flat(p), Flat(q));
    assert Flat([page]) == Flat([]) + page == page;
    assert (page + [v])[..|page|] == page;
  }

  lemma {:induction false} FlatJoins(p: seq<seq<Version>>, q: seq<seq<Version>>)
    ensures Flat(p + q) == Flat(p) + Flat(q)
  {
    if q == [] {
      assert p + q == p && Flat(p) + Flat(q) == Flat(p);
    } else {
      var n := |q| - 1;
      assert (p + q)[..|p| + n] == p + q[..n];
      FlatJoins(p, q[..n]);
    }
  }

  lemma {:induction false} LiveJoins(a: seq<Version>, b: seq<Version>)
    ensures Live(a + b) == Live(a) + Live(b)
  {
    if b == [] {
      assert a + b == a && Live(a) + Live(b) == Live(a);
    } else {
      var n := |b| - 1;
      assert (a + b)[..|a| + n] == a + b[..n];
      LiveJoins(a, b[..n]);
    }
  }

  // ---- the four kinds of object -------------------------------------------------

  ghost predicate IsLinked(scan: Scan, o: Obj) { o.key in scan.referenced }

  ghost predicate IsQueued(scan: Scan, o: Obj) { o.key !in scan.referenced && o.key in scan.queued }

  /** A younger object may still be waiting for its row. */
  ghost predicate IsYoung(scan: Scan, o: Obj) {
    o.key !in scan.referenced && o.key !in scan.queued && o.modified > scan.now - 86_400_000_000
  }

  ghost predicate IsOrphan(scan: Scan, o: Obj) {
    o.key !in scan.referenced && o.key !in scan.queued && o.modified <= scan.now - 86_400_000_000
  }

  /** Below the folder `name`, or at the root of the bucket. */
  ghost predicate InFolder(name: string, o: Obj) {
    if '/' in o.key then '/' !in name && name + "/" <= o.key else name == "(bucket root)"
  }

  ghost predicate IsRowOf(row: Row, o: Obj) {
    row.key == o.key && row.size == o.size && ValidInstant(o.modified) && row.lastModified == IsoZ(o.modified)
  }

  ghost function Positions(objects: seq<Obj>, p: Obj -> bool): set<int> { set i | 0 <= i < |objects| && p(objects[i]) }

  /** Bytes of the objects that satisfy `p`. */
  ghost function BytesOf(objects: seq<Obj>, p: Obj -> bool): nat {
    if objects == [] then 0
    else BytesOf(objects[..|objects| - 1], p) + if p(objects[|objects| - 1]) then objects[|objects| - 1].size else 0
  }

  // ---- counting -----------------------------------------------------------------

  lemma PositionsSnoc(objects: seq<Obj>, o: Obj, p: Obj -> bool)
    ensures |Positions(objects + [o], p)| == |Positions(objects, p)| + if p(o) then 1 else 0
    ensures BytesOf(objects + [o], p) == BytesOf(objects, p) + if p(o) then o.size else 0
  {
    var all := objects + [o];
    assert all[..|objects|] == objects;
    assert Positions(all, p) == Positions(objects, p) + if p(o) then {|objects|} else {};
  }

  lemma ClassIs(scan: Scan, o: Obj)
    ensures Classify(scan, o) == Referenced <==> IsLinked(scan, o)
    ensures Classify(scan, o) == Queued <==> IsQueued(scan, o)
    ensures Classify(scan, o) == Recent <==> IsYoung(scan, o)
    ensures Classify(scan, o) == Orphan <==> IsOrphan(scan, o)
  {
  }

  lemma FolderIs(name: string, o: Obj)
    ensures TopLevel(o.key) == name <==> InFolder(name, o)
  {
    if '/' in o.key {
      var head := UpToSlash(o.key);
      assert o.key[|head|] == '/';
      if '/' !in name && name + "/" <= o.key {
        assert o.key[|name|] == '/';
        assert forall i :: 0 <= i < |name| ==> o.key[i] == name[i];
        assert forall i :: 0 <= i < |head| ==> o.key[i] == head[i];
        assert |name| == |head|;
        assert name == o.key[..|name|] == head;
      }
    }
  }

  /** The size and bytes of a class. */
  lemma {:induction false} ClassPositions(scan: Scan, c: Class, objects: seq<Obj>, p: Obj -> bool)
    requires forall o :: p(o) <==> Classify(scan, o) == c
    ensures |OfClass(scan, c, objects)| == |Positions(objects, p)| && Bytes(OfClass(scan, c, objects)) == BytesOf(objects, p)
  {
    hide Classify;
    if objects != [] {
      var n := |objects| - 1;
      assert objects == objects[..n] + [objects[n]];
      ClassPositions(scan, c, objects[..n], p);
      PositionsSnoc(objects[..n], objects[n], p);
      OfClassSnoc(scan, c, objects[..n], objects[n]);
      BytesSnoc(OfClass(scan, c, objects[..n]), objects[n]);
    }
  }

  /** The orphans below a folder, in listing order. */
  ghost function OrphansIn(scan: Scan, name: string, objects: seq<Obj>): seq<Obj> {
    Members(name, OfClass(scan, Orphan, objects))
  }

  lemma OrphansInSnoc(scan: Scan, name: string, objects: seq<Obj>)
    requires objects != []
    ensures var n := |objects| - 1;
      objects == objects[..n] + [objects[n]] && OrphansIn(scan, name, objects)
      == if Classify(scan, objects[n]) == Orphan && TopLevel(objects[n].key) == name then OrphansIn(scan, name, objects[..n]) + [objects[n]]
         else OrphansIn(scan, name, objects[..n])
  {
    hide Classify, TopLevel, OfClass, Members;
    var n := |objects| - 1;
    assert objects == objects[..n] + [objects[n]];
    OfClassSnoc(scan, Orphan, objects[..n], objects[n]);
    MembersSnoc(name, OfClass(scan, Orphan, objects[..n]), objects[n]);
  }

  lemma NoOrphans(scan: Scan, name: string)
    ensures OrphansIn(scan, name, []) == []
  {
  }

  lemma {:induction false} MemberPositions(scan: Scan, name: string, objects: seq<Obj>, p: Obj -> bool)
    requires forall o :: p(o) <==> Classify(scan, o) == Orphan && TopLevel(o.key) == name
    ensures |OrphansIn(scan, name, objects)| == |Positions(objects, p)| && Bytes(OrphansIn(scan, name, objects)) == BytesOf(objects, p)
  {
    hide Classify, TopLevel, Positions, BytesOf, Bytes, OrphansIn;
    if objects == [] {
      NothingThere(p);
      NoOrphans(scan, name);
    } else {
      var n := |objects| - 1;
      OrphansInSnoc(scan, name, objects);
      MemberPositions(scan, name, objects[..n], p);
      PositionsSnoc(objects[..n], objects[n], p);
      BytesSnoc(OrphansIn(scan, name, objects[..n]), objects[n]);
    }
  }

  lemma NothingThere(p: Obj -> bool)
    ensures Positions([], p) == {} && BytesOf([], p) == 0 && Bytes([]) == 0
  {
  }

  // ---- rows ---------------------------------------------------------------------

  lemma RowIs(o: Obj, row: Row)
    requires ValidInstant(o.modified)
    ensures IsRowOf(row, o) <==> row == RowOf(o)
  {
    hide IsoZ;
  }

  lemma {:induction false} ClassRows(scan: Scan, objects: seq<Obj>, row: Row, p: Obj -> bool)
    requires ValidTimes(OfClass(scan, Queued, objects))
    requires forall o :: p(o) <==> Classify(scan, o) == Queued && IsRowOf(row, o)
    ensures multiset(Rows(OfClass(scan, Queued, objects)))[row] == |Positions(objects, p)|
  {
    hide Classify, IsRowOf, RowOf, Rows, Positions;
    if objects == [] {
      NothingThere(p);
      NothingGrouped();
    } else {
      var n := |objects| - 1;
      var init, last := OfClass(scan, Queued, objects[..n]), objects[n];
      assert objects == objects[..n] + [last];
      OfClassSnoc(scan, Queued, objects[..n], last);
      assert ValidTimes(init) by { assert forall o :: o in init ==> o in OfClass(scan, Queued, objects); }
      ClassRows(scan, objects[..n], row, p);
      PositionsSnoc(objects[..n], last, p);
      if Classify(scan, last) == Queued {
        assert last in OfClass(scan, Queued, objects);
        RowsSnoc(init, last);
        RowIs(last, row);
      }
    }
  }

  lemma {:induction false} MemberRows(scan: Scan, name: string, objects: seq<Obj>, row: Row, p: Obj -> bool)
    requires ValidTimes(OrphansIn(scan, name, objects))
    requires forall o :: p(o) <==> Classify(scan, o) == Orphan && TopLevel(o.key) == name && IsRowOf(row, o)
    ensures multiset(Rows(OrphansIn(scan, name, objects)))[row] == |Positions(objects, p)|
  {
    hide Classify, TopLevel, IsRowOf, RowOf, Rows, Positions, OrphansIn;
    if objects == [] {
      NothingThere(p);
      NothingGrouped();
      assert OrphansIn(scan, name, []) == [] by { NoOrphans(scan, name); }
    } else {
      var n := |objects| - 1;
      var init, last := OrphansIn(scan, name, objects[..n]), objects[n];
      OrphansInSnoc(scan, name, objects);
      MemberRows(scan, name, objects[..n], row, p);
      PositionsSnoc(objects[..n], last, p);
      if Classify(scan, last) == Orphan && TopLevel(last.key) == name {
        assert last in OrphansIn(scan, name, objects);
        RowsSnoc(init, last);
        RowIs(last, row);
      }
    }
  }

  /** The first `m` orphans of a folder are all its orphans in some first part of the listing. */
  lemma {:induction false} FirstMembers(scan: Scan, name: string, objects: seq<Obj>, m: nat) returns (k: nat)
    requires m <= |OrphansIn(scan, name, objects)|
    ensures k <= |objects| && OrphansIn(scan, name, objects[..k]) == OrphansIn(scan, name, objects)[..m]
  {
    hide Classify, TopLevel, OrphansIn;
    var all := OrphansIn(scan, name, objects);
    if m == |all| {
      k := |objects|;
      assert objects[..k] == objects && all[..m] == all;
    } else {
      assert objects != [] by { NoOrphans(scan, name); }
      var n := |objects| - 1;
      OrphansInSnoc(scan, name, objects);
      k := FirstMembers(scan, name, objects[..n], m);
      assert objects[..n][..k] == objects[..k];
    }
  }

  // ---- the report ---------------------------------------------------------------

  /**
   The totals of a report: referenced are the objects a database row points at, the queued rows those of the
   objects only a deletion job points at, recent the others younger than a day, and orphans the rest.
   */
  lemma ReportTotals(scan: Scan, objects: seq<Obj>, r: Report)
    requires Reports(scan, objects, r)
    ensures r.live == |objects|
    ensures r.referenced == |Positions(objects, o => IsLinked(scan, o))|
    ensures r.recent == |Positions(objects, o => IsYoung(scan, o))|
    ensures r.orphans == |Positions(objects, o => IsOrphan(scan, o))| && r.orphanBytes == BytesOf(objects, o => IsOrphan(scan, o))
    ensures |r.queued| == |Positions(objects, o => IsQueued(scan, o))|
    ensures forall i, j :: 0 <= i < j < |r.queued| ==> Le(r.queued[i].key, r.queued[j].key)
    ensures forall row ::
      multiset(r.queued)[row] == |Positions(objects, o => IsQueued(scan, o) && IsRowOf(row, o))|
  {
    hide Classify, OfClass, Members, Describes, SortRows, Rows, Positions, BytesOf, Bytes;
    hide IsLinked, IsQueued, IsYoung, IsOrphan, IsRowOf, Le;
    forall o
      ensures Classify(scan, o) == Referenced <==> IsLinked(scan, o)
      ensures Classify(scan, o) == Queued <==> IsQueued(scan, o)
      ensures Classify(scan, o) == Recent <==> IsYoung(scan, o)
      ensures Classify(scan, o) == Orphan <==> IsOrphan(scan, o)
    {
      ClassIs(scan, o);
    }
    ClassPositions(scan, Referenced, objects, o => IsLinked(scan, o));
    ClassPositions(scan, Queued, objects, o => IsQueued(scan, o));
    ClassPositions(scan, Recent, objects, o => IsYoung(scan, o));
    ClassPositions(scan, Orphan, objects, o => IsOrphan(scan, o));
    var queued := OfClass(scan, Queued, objects);
    SortRowsSorts(Rows(queued));
    SameLength(queued);
    assert |multiset(SortRows(Rows(queued)))| == |multiset(Rows(queued))|;
    forall row ensures multiset(r.queued)[row] == |Positions(objects, o => IsQueued(scan, o) && IsRowOf(row, o))| {
      ClassRows(scan, objects, row, o => IsQueued(scan, o) && IsRowOf(row, o));
    }
  }

  ghost predicate IsOrphanIn(scan: Scan, name: string, o: Obj) { IsOrphan(scan, o) && InFolder(name, o) }

  /** A group of a report: the folders with orphans, and of each the number, the bytes and the first and last time text. */
  lemma ReportGroups(scan: Scan, objects: seq<Obj>, r: Report, name: string)
    requires Reports(scan, objects, r)
    ensures name in r.groups <==> exists o :: o in objects && IsOrphanIn(scan, name, o)
    ensures name in r.groups ==> var g := r.groups[name];
      && g.count == |Positions(objects, o => IsOrphanIn(scan, name, o))|
      && g.bytes == BytesOf(objects, o => IsOrphanIn(scan, name, o))
      && g.oldest.Some? && g.newest.Some?
      && (forall o :: o in objects && IsOrphanIn(scan, name, o) ==>
            ValidInstant(o.modified) && Le(g.oldest.value, IsoZ(o.modified)) && Le(IsoZ(o.modified), g.newest.value))
      && (exists o :: o in objects && IsOrphanIn(scan, name, o) && ValidInstant(o.modified) && IsoZ(o.modified) == g.oldest.value)
      && (exists o :: o in objects && IsOrphanIn(scan, name, o) && ValidInstant(o.modified) && IsoZ(o.modified) == g.newest.value)
  {
    hide Classify, TopLevel, SortRows, Rows, Positions, BytesOf, Bytes, IsOrphan, InFolder, Le, IsoZ;
    var members := Members(name, OfClass(scan, Orphan, objects));
    forall o ensures Classify(scan, o) == Orphan && TopLevel(o.key) == name <==> IsOrphanIn(scan, name, o) {
      ClassIs(scan, o);
      FolderIs(name, o);
    }
    assert forall o :: o in members <==> o in objects && IsOrphanIn(scan, name, o);
    if members != [] { assert members[0] in members; }
    MemberPositions(scan, name, objects, o => IsOrphanIn(scan, name, o));
  }

  /**
   The sample of a group: the rows of its first 200 orphans of the listing at most, in key order. Every row
   of it is one of an orphan of the folder.
   */
  lemma ReportSample(scan: Scan, objects: seq<Obj>, r: Report, name: string) returns (k: nat)
    requires Reports(scan, objects, r) && name in r.groups
    ensures var keys := r.groups[name].keys;
      && |keys| == (if r.groups[name].count < 200 then r.groups[name].count else 200)
      && (forall i, j :: 0 <= i < j < |keys| ==> Le(keys[i].key, keys[j].key))
      && k <= |objects|
      && |keys| == |Positions(objects[..k], o => IsOrphanIn(scan, name, o))|
      && forall row ::
           multiset(keys)[row] == |Positions(objects[..k], o => IsOrphanIn(scan, name, o) && IsRowOf(row, o))|
  {
    hide Classify, TopLevel, OfClass, Members, SortRows, Rows, Positions, BytesOf, Bytes;
    hide IsOrphanIn, IsRowOf, Le, IsoZ, FirstText, LastText;
    var members := Members(name, OfClass(scan, Orphan, objects));
    forall o ensures Classify(scan, o) == Orphan && TopLevel(o.key) == name <==> IsOrphanIn(scan, name, o) {
      OrphanInIs(scan, name, o);
    }
    k := FirstMembers(scan, name, objects, |Sample(members)|);
    var sample := Members(name, OfClass(scan, Orphan, objects[..k]));
    assert sample == Sample(members);
    SampleOfGroup(scan, objects, r, name);
    MemberPositions(scan, name, objects[..k], o => IsOrphanIn(scan, name, o));
    forall row
      ensures multiset(r.groups[name].keys)[row] == |Positions(objects[..k], o => IsOrphanIn(scan, name, o) && IsRowOf(row, o))|
    {
      MemberRows(scan, name, objects[..k], row, o => IsOrphanIn(scan, name, o) && IsRowOf(row, o));
    }
  }

  lemma OrphanInIs(scan: Scan, name: string, o: Obj)
    ensures Classify(scan, o) == Orphan && TopLevel(o.key) == name <==> IsOrphanIn(scan, name, o)
  {
    ClassIs(scan, o);
    FolderIs(name, o);
  }
}
