/** The listings as clients and visitors read them: the index, the directory, and its counts. */
module Catalogue {
  import opened Basics
  import opened Registry
  import opened Tables

  /** One row of the join between plugin and its approved release. */
  datatype Row = Row(
    id: string, name: string, description: string, author: string, homepage: string,
    version: string, url: string, sha256: Option<string>, sdk: string, minApp: Option<string>, notes: Option<string>)

  datatype Browsed = Browsed(plugins: seq<Listing>, listed: nat, awaiting: nat, delisted: nat)

  function RowId(r: Row): string {
    r.id
  }

  predicate Visible(plugins: map<string, Plugin>, id: string) {
    id in plugins && plugins[id].delistedAt.None?
  }

  predicate Joined(plugins: map<string, Plugin>, r: Release) {
    r.state == Approved && Visible(plugins, r.plugin)
  }

  function RowOf(p: Plugin, r: Release): Row {
    Row(r.plugin, p.name, p.description, p.author, p.homepage, r.version, r.url, r.sha256, r.sdk, r.minApp, r.notes)
  }

  /** ListListings: the join, ordered by plugin id. */
  function ListListings(plugins: map<string, Plugin>, rs: seq<Release>): seq<Row> {
    if rs == [] then []
    else
      var last := rs[|rs| - 1];
      var rest := ListListings(plugins, rs[..|rs| - 1]);
      if Joined(plugins, last) then InsertBy(RowOf(plugins[last.plugin], last), rest, RowId) else rest
  }

  /** listingFrom: None for a row with no usable hash. */
  function ListingFrom(row: Row): Option<Listing> {
    if row.sha256.None? || row.sha256.value == "" then None
    else Some(Listing(row.id, row.name, row.description, row.author, row.homepage, row.version, row.url,
                      row.sha256.value, row.sdk, row.minApp, if row.notes.Some? then row.notes.value else ""))
  }

  /** All of the rows as listings, or None when one of them cannot be served. */
  function Rendered(rows: seq<Row>): (r: Option<seq<Listing>>)
    ensures r.Some? ==> |r.value| == |rows|
    ensures r.Some? <==> forall i :: 0 <= i < |rows| ==> ListingFrom(rows[i]).Some?
    ensures r.Some? ==> forall i :: 0 <= i < |rows| ==> ListingFrom(rows[i]) == Some(r.value[i])
  {
    if rows == [] then Some([])
    else match (Rendered(rows[..|rows| - 1]), ListingFrom(rows[|rows| - 1]))
      case (Some(ls), Some(l)) => Some(ls + [l])
      case _ => None
  }

  /** Renders rows one by one. One that cannot be served fails the whole read. */
  method RenderRows(rows: seq<Row>) returns (r: Option<seq<Listing>>)
    ensures r == Rendered(rows)
  {
    var out := [];
    for i := 0 to |rows|
      invariant Rendered(rows[..i]) == Some(out)
    {
      assert rows[..i + 1][..i] == rows[..i];
      var l := ListingFrom(rows[i]);
      if l.None? {
        return None;
      }
      out := out + [l.value];
    }
    assert rows[..|rows|] == rows;
    return Some(out);
  }

  function ListingsOf(db: Db): Option<seq<Listing>> {
    Rendered(ListListings(db.plugins, db.releases))
  }

  method Listings(store: Store) returns (r: Option<seq<Listing>>)
    ensures r == ListingsOf(store.Contents())
  {
    r := RenderRows(ListListings(store.plugins, store.releases));
  }

  // ---- the directory ----

  /** instr(hay, needle) > 0. The empty needle is found everywhere. */
  predicate Contains(hay: string, needle: string) {
    exists i :: 0 <= i <= |hay| && needle <= hay[i..]
  }

  predicate Matches(row: Row, needle: string) {
    || Contains(FoldAscii(row.id), needle) || Contains(FoldAscii(row.name), needle)
    || Contains(FoldAscii(row.description), needle) || Contains(FoldAscii(row.author), needle)
  }

  function Matching(rows: seq<Row>, needle: string): seq<Row> {
    if rows == [] then []
    else Matching(rows[..|rows| - 1], needle)
         + if Matches(rows[|rows| - 1], needle) then [rows[|rows| - 1]] else []
  }

  /** Lower-cases A-Z in a byte buffer, in place. */
  method FoldInPlace(b: array<char>)
    modifies b
    ensures b[..] == FoldAscii(old(b[..]))
  {
    ghost var was := b[..];
    for i := 0 to b.Length
      invariant forall k :: 0 <= k < i ==> b[k] == LowerAscii(was[k])
      invariant b[i..] == was[i..]
    {
      assert b[i] == was[i];
      if 'A' <= b[i] <= 'Z' {
        b[i] := (b[i] as int + 32) as char;
      }
    }
  }

  method FoldQuery(s: string) returns (folded: string)
    ensures folded == FoldAscii(s)
  {
    var b := new char[|s|](i requires 0 <= i < |s| => s[i]);
    assert b[..] == s;
    FoldInPlace(b);
    folded := b[..];
  }

  // ---- CountCatalogue ----

  function ListedCount(plugins: map<string, Plugin>, rs: seq<Release>): nat {
    if rs == [] then 0
    else ListedCount(plugins, rs[..|rs| - 1]) + if Joined(plugins, rs[|rs| - 1]) then 1 else 0
  }

  function AwaitingIds(plugins: map<string, Plugin>, rs: seq<Release>): set<string> {
    set id | id in plugins && plugins[id].delistedAt.None? && LiveRow(rs, id).None?
  }

  function DelistedIds(plugins: map<string, Plugin>): set<string> {
    set id | id in plugins && plugins[id].delistedAt.Some?
  }

  function BrowseOf(db: Db, query: string): Option<Browsed> {
    match Rendered(Matching(ListListings(db.plugins, db.releases), FoldAscii(query)))
    case None => None
    case Some(ls) =>
      Some(Browsed(ls, ListedCount(db.plugins, db.releases),
                   |AwaitingIds(db.plugins, db.releases)|, |DelistedIds(db.plugins)|))
  }

  method Browse(store: Store, query: string) returns (r: Option<Browsed>)
    ensures r == BrowseOf(store.Contents(), query)
  {
    var needle := FoldQuery(query);
    var out := RenderRows(Matching(ListListings(store.plugins, store.releases), needle));
    if out.None? {
      return None;
    }
    r := Some(Browsed(out.value, ListedCount(store.plugins, store.releases),
                      |AwaitingIds(store.plugins, store.releases)|, |DelistedIds(store.plugins)|));
  }

  // ---- what the schema's uniqueness gives the reader ----

  /** At most one approved release per plugin. */
  ghost predicate OneApproved(rs: seq<Release>) {
    forall i, j :: 0 <= i < j < |rs| && rs[i].plugin == rs[j].plugin ==> !(rs[i].state == Approved && rs[j].state == Approved)
  }

  /** A row of the join comes from an approved release of a visible plugin. */
  lemma {:induction false} RowsComeFromReleases(plugins: map<string, Plugin>, rs: seq<Release>)
    ensures forall row :: row in ListListings(plugins, rs) ==>
              exists i :: 0 <= i < |rs| && Joined(plugins, rs[i]) && row == RowOf(plugins[rs[i].plugin], rs[i])
  {
    if rs != [] {
      var init, last := rs[..|rs| - 1], rs[|rs| - 1];
      RowsComeFromReleases(plugins, init);
      forall row | row in ListListings(plugins, rs)
        ensures exists i :: 0 <= i < |rs| && Joined(plugins, rs[i]) && row == RowOf(plugins[rs[i].plugin], rs[i])
      {
        if Joined(plugins, last) {
          InsertPermutes(RowOf(plugins[last.plugin], last), ListListings(plugins, init), RowId);
          assert row in multiset(ListListings(plugins, rs));
        }
        if row in ListListings(plugins, init) {
          var i :| 0 <= i < |init| && Joined(plugins, init[i]) && row == RowOf(plugins[init[i].plugin], init[i]);
          assert rs[i] == init[i];
        } else {
          assert rs[|rs| - 1] == last;
        }
      }
    }
  }

  /** Every approved release of a visible plugin has its row. */
  lemma {:induction false} ReleasesHaveRows(plugins: map<string, Plugin>, rs: seq<Release>, k: nat)
    requires k < |rs| && Joined(plugins, rs[k])
    ensures RowOf(plugins[rs[k].plugin], rs[k]) in ListListings(plugins, rs)
  {
    var init, last := rs[..|rs| - 1], rs[|rs| - 1];
    if k < |init| {
      ReleasesHaveRows(plugins, init, k);
    }
    if Joined(plugins, last) {
      InsertPermutes(RowOf(plugins[last.plugin], last), ListListings(plugins, init), RowId);
      assert RowOf(plugins[rs[k].plugin], rs[k]) in multiset(ListListings(plugins, rs));
    }
  }

  /** The index query returns each plugin once, in strictly increasing id order. */
  lemma {:induction false} ListingsIncrease(plugins: map<string, Plugin>, rs: seq<Release>)
    requires OneApproved(rs)
    ensures Increasing(ListListings(plugins, rs), RowId)
    ensures |ListListings(plugins, rs)| == ListedCount(plugins, rs)
  {
    if rs != [] {
      var init, last := rs[..|rs| - 1], rs[|rs| - 1];
      ListingsIncrease(plugins, init);
      if Joined(plugins, last) {
        var rows := ListListings(plugins, init);
        forall i | 0 <= i < |rows|
          ensures rows[i].id != last.plugin
        {
          RowsComeFromReleases(plugins, init);
          assert rows[i] in rows;
          var j :| 0 <= j < |init| && Joined(plugins, init[j]) && rows[i] == RowOf(plugins[init[j].plugin], init[j]);
          assert rs[j] == init[j];
        }
        InsertKeepsIncreasing(RowOf(plugins[last.plugin], last), rows);
      }
    }
  }

  lemma {:induction false} InsertKeepsIncreasing(x: Row, rows: seq<Row>)
    requires Increasing(rows, RowId) && forall i :: 0 <= i < |rows| ==> rows[i].id != x.id
    ensures Increasing(InsertBy(x, rows, RowId), RowId)
    ensures |InsertBy(x, rows, RowId)| == |rows| + 1
    ensures forall b :: TextLess(x.id, b) && (forall i :: 0 <= i < |rows| ==> TextLess(rows[i].id, b)) ==>
              forall i :: 0 <= i < |InsertBy(x, rows, RowId)| ==> TextLess(InsertBy(x, rows, RowId)[i].id, b)
  {
    if rows != [] {
      var last := rows[|rows| - 1];
      if Before(x.id, last.id) {
        InsertKeepsIncreasing(x, rows[..|rows| - 1]);
      } else {
        TextLessTotal(x.id, last.id);
        forall i | 0 <= i < |rows| - 1
          ensures TextLess(rows[i].id, x.id)
        {
          assert TextLess(RowId(rows[i]), RowId(last));
          TextLessTransitive(rows[i].id, last.id, x.id);
        }
      }
    }
  }

  // ---- the counts ----

  function ListedIds(plugins: map<string, Plugin>, rs: seq<Release>): set<string> {
    set id | id in plugins && plugins[id].delistedAt.None? && LiveRow(rs, id).Some?
  }

  /** The number of joined rows is the number of visible plugins with a live release. */
  lemma {:induction false} ListedCountIsIds(plugins: map<string, Plugin>, rs: seq<Release>)
    requires OneApproved(rs)
    ensures ListedCount(plugins, rs) == |ListedIds(plugins, rs)|
  {
    if rs == [] {
      assert ListedIds(plugins, rs) == {};
    } else {
      hide ListedIds, LiveRow, OneApproved;
      var init, last := rs[..|rs| - 1], rs[|rs| - 1];
      NotListedBefore(plugins, rs);
      ListedCountIsIds(plugins, init);
      LiveIdsGrow(plugins, rs);
      if Joined(plugins, last) {
        assert ListedIds(plugins, rs) == ListedIds(plugins, init) + {last.plugin};
      } else {
        assert ListedIds(plugins, rs) == ListedIds(plugins, init);
      }
    }
  }

  lemma NotListedBefore(plugins: map<string, Plugin>, rs: seq<Release>)
    requires OneApproved(rs) && rs != []
    ensures OneApproved(rs[..|rs| - 1])
    ensures Joined(plugins, rs[|rs| - 1]) ==> rs[|rs| - 1].plugin !in ListedIds(plugins, rs[..|rs| - 1])
  {
    assert forall i :: 0 <= i < |rs| - 1 ==> rs[..|rs| - 1][i] == rs[i];
  }

  lemma LiveIdsGrow(plugins: map<string, Plugin>, rs: seq<Release>)
    requires rs != []
    ensures forall id :: id in ListedIds(plugins, rs)
              <==> id in ListedIds(plugins, rs[..|rs| - 1]) || (id == rs[|rs| - 1].plugin && Joined(plugins, rs[|rs| - 1]))
  {
    var init, last := rs[..|rs| - 1], rs[|rs| - 1];
    forall id | id in plugins
      ensures LiveRow(rs, id).Some? <==> LiveRow(init, id).Some? || (id == last.plugin && last.state == Approved)
    {
      var i, j := LiveRow(rs, id), LiveRow(init, id);
      assert j.Some? ==> rs[j.value] == init[j.value];
      assert i.Some? && i.value < |init| ==> init[i.value] == rs[i.value];
    }
  }

  /** Listed, awaiting and delisted account for every plugin, and `listed` is what the index serves. */
  lemma CatalogueAccounting(db: Db)
    requires OneApproved(db.releases)
    ensures ListedCount(db.plugins, db.releases) + |AwaitingIds(db.plugins, db.releases)| + |DelistedIds(db.plugins)|
         == |db.plugins|
    ensures |ListListings(db.plugins, db.releases)| == ListedCount(db.plugins, db.releases)
  {
    ListedCountIsIds(db.plugins, db.releases);
    ListingsIncrease(db.plugins, db.releases);
    IdsPartition(db.plugins, db.releases);
    hide OneApproved, ListListings, ListedCount, ListedIds, AwaitingIds, DelistedIds;
    var l, a, d := ListedIds(db.plugins, db.releases), AwaitingIds(db.plugins, db.releases), DelistedIds(db.plugins);
    assert |l + a| == |l| + |a| && |l + a + d| == |l + a| + |d|;
  }

  lemma IdsPartition(plugins: map<string, Plugin>, rs: seq<Release>)
    ensures ListedIds(plugins, rs) !! AwaitingIds(plugins, rs)
    ensures (ListedIds(plugins, rs) + AwaitingIds(plugins, rs)) !! DelistedIds(plugins)
    ensures ListedIds(plugins, rs) + AwaitingIds(plugins, rs) + DelistedIds(plugins) == plugins.Keys
  {
  }

  // ---- the directory agrees with the index ----

  /** `xs` keeps some of the elements of `ys`, in order. */
  ghost predicate SubList<T>(xs: seq<T>, ys: seq<T>) {
    xs == [] || (ys != [] && (SubList(xs, ys[..|ys| - 1])
                              || (xs[|xs| - 1] == ys[|ys| - 1] && SubList(xs[..|xs| - 1], ys[..|ys| - 1]))))
  }

  lemma {:induction false} MatchingIsSubList(rows: seq<Row>, needle: string)
    ensures SubList(Matching(rows, needle), rows)
    ensures forall row :: row in Matching(rows, needle) <==> row in rows && Matches(row, needle)
    ensures needle == "" ==> Matching(rows, needle) == rows
  {
    if rows != [] {
      var init, last := rows[..|rows| - 1], rows[|rows| - 1];
      MatchingIsSubList(init, needle);
      assert rows == init + [last];
      if Matches(last, needle) {
        var m := Matching(rows, needle);
        assert m[..|m| - 1] == Matching(init, needle);
      } else {
        assert Matching(rows, needle) == Matching(init, needle);
      }
      if needle == "" {
        assert needle <= FoldAscii(last.id)[0..];
      }
    }
  }

  /** Searching returns, in index order, exactly the index rows that match; the empty query returns
      the index itself. */
  lemma BrowseAgreesWithIndex(db: Db, query: string)
    requires ListingsOf(db).Some?
    ensures BrowseOf(db, query).Some?
    ensures SubList(BrowseOf(db, query).value.plugins, ListingsOf(db).value)
    ensures query == "" ==> BrowseOf(db, query).value.plugins == ListingsOf(db).value
  {
    var rows := ListListings(db.plugins, db.releases);
    MatchingIsSubList(rows, FoldAscii(query));
    SubListRenders(Matching(rows, FoldAscii(query)), rows);
  }

  lemma {:induction false} SubListRenders(xs: seq<Row>, ys: seq<Row>)
    requires SubList(xs, ys) && Rendered(ys).Some?
    ensures Rendered(xs).Some? && SubList(Rendered(xs).value, Rendered(ys).value)
  {
    if xs != [] {
      var ys' := ys[..|ys| - 1];
      assert forall i :: 0 <= i < |ys'| ==> ys'[i] == ys[i];
      var l := Rendered(ys).value;
      assert l[..|l| - 1] == Rendered(ys').value;
      if SubList(xs, ys') {
        SubListRenders(xs, ys');
      } else {
        SubListRenders(xs[..|xs| - 1], ys');
        var m := Rendered(xs).value;
        assert m[..|m| - 1] == Rendered(xs[..|xs| - 1]).value;
      }
    }
  }
}
