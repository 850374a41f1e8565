/** Importing a captured catalogue into an empty database, once. */
module Seeding {
  import opened Basics
  import opened Notes
  import opened Submissions
  import opened Registry
  import opened Tables
  import opened Catalogue

  datatype ImportSkip = CatalogueExists | AlreadyImported | SeedEmpty

  datatype ImportOutcome = ImportOutcome(plugins: nat, skip: Option<ImportSkip>, existing: nat)

  function ImportedPlugin(l: Listing): Plugin {
    Plugin(l.name, l.description, l.author, l.homepage, None, None)
  }

  function ImportedRelease(l: Listing, notes: string, id: string, now: int): Release {
    Release(id, l.id, l.version, Approved, Imported, l.url, Some(l.sha256), None, l.sdk, l.minApp,
            if notes == "" then None else Some(notes), None, now, None, None, None, Some(ImportNote))
  }

  /** insertImported: the plugin row, then its one approved release. */
  function InsertImported(db: Db, l: Listing, id: string, now: int): Result<Db, Error> {
    if l.id in db.plugins || !PluginChecks(l.id, ImportedPlugin(l)) then Err(ConstraintViolated)
    else match ValidateReleaseNotes(l.notes)
      case Err(_) => Err(BadSeedNotes)
      case Ok(notes) =>
        var plugins := db.plugins[l.id := ImportedPlugin(l)];
        var row := ImportedRelease(l, notes, id, now);
        if !InsertAdmitted(db.accounts, plugins, db.releases, row) then Err(ConstraintViolated)
        else Ok(db.(plugins := plugins, releases := db.releases + [row]))
  }

  function ImportAll(db: Db, ls: seq<Listing>, ids: seq<string>, now: int): Result<Db, Error>
    requires |ids| == |ls|
  {
    if ls == [] then Ok(db)
    else match ImportAll(db, ls[..|ls| - 1], ids[..|ls| - 1], now)
      case Err(e) => Err(e)
      case Ok(d) => InsertImported(d, ls[|ls| - 1], ids[|ls| - 1], now)
  }

  function ImportCount(audit: seq<Entry>): nat {
    if audit == [] then 0
    else ImportCount(audit[..|audit| - 1]) + if audit[|audit| - 1].event.CatalogueImportEvent? then 1 else 0
  }

  function SkipOf(db: Db, seed: seq<Listing>): Option<ImportSkip> {
    if |db.plugins| > 0 then Some(CatalogueExists)
    else if ImportCount(db.audit) > 0 then Some(AlreadyImported)
    else if seed == [] then Some(SeedEmpty)
    else None
  }

  /** `ids` are the release ids minted, one for each listing of the seed. */
  ghost function ImportTx(db: Db, seed: seq<Listing>, ids: seq<string>, now: int): (Db, Result<ImportOutcome, Error>)
    requires |ids| == |seed|
  {
    match NewIndexOf(seed)
    case None => (db, Err(InvalidSeed))
    case Some(ls) =>
      IndexKeepsSize(seed);
      match SkipOf(db, ls)
      case Some(skip) => (db, Ok(ImportOutcome(0, Some(skip), |db.plugins|)))
      case None =>
        match ImportAll(db, ls, ids, now)
        case Err(e) => (db, Err(e))
        case Ok(d) =>
          (d.(audit := d.audit + [Entry(BySystem, CatalogueImportEvent(|ls|))]),
           Ok(ImportOutcome(|ls|, None, |db.plugins|)))
  }

  lemma IndexKeepsSize(seed: seq<Listing>)
    requires NewIndexOf(seed).Some?
    ensures |NewIndexOf(seed).value| == |seed|
  {
    SortPermutes(seed, ListingId);
    assert |multiset(SortBy(seed, ListingId))| == |multiset(seed)|;
  }

  method ImportSeed(store: Store, seed: seq<Listing>, ids: seq<string>, now: int)
    returns (r: Result<ImportOutcome, Error>)
    requires |ids| == |seed|
    modifies store
    ensures (store.Contents(), r) == ImportTx(old(store.Contents()), seed, ids, now)
  {
    var idx := NewIndex(seed);
    if idx.Err? {
      return Err(InvalidSeed);
    }
    IndexKeepsSize(seed);
    var ls := idx.value;
    var begun := store.Contents();
    var skip := SkipOf(begun, ls);
    if skip.Some? {
      return Ok(ImportOutcome(0, skip, |begun.plugins|));
    }
    var error := ImportEach(store, ls, ids, now);
    if error.Some? {
      store.Rollback(begun);
      return Err(error.value);
    }
    error := store.Record(BySystem, CatalogueImportEvent(|ls|));
    r := Ok(ImportOutcome(|ls|, None, |begun.plugins|));
  }

  method ImportEach(store: Store, ls: seq<Listing>, ids: seq<string>, now: int) returns (error: Option<Error>)
    requires |ids| == |ls|
    modifies store`plugins, store`releases
    ensures match ImportAll(old(store.Contents()), ls, ids, now)
            case Err(e) => error == Some(e)
            case Ok(d) => error.None? && store.Contents() == d
  {
    ghost var begun := store.Contents();
    for i := 0 to |ls|
      invariant ImportAll(begun, ls[..i], ids[..i], now) == Ok(store.Contents())
    {
      ghost var before := store.Contents();
      assert ls[..i + 1][..i] == ls[..i] && ids[..i + 1][..i] == ids[..i];
      error := ImportOne(store, ls[i], ids[i], now);
      assert ImportAll(begun, ls[..i + 1], ids[..i + 1], now) == InsertImported(before, ls[i], ids[i], now);
      if error.Some? {
        ErrorStays(begun, ls, ids, now, i + 1);
        return;
      }
    }
    assert ls[..|ls|] == ls && ids[..|ls|] == ids;
    error := None;
  }

  method ImportOne(store: Store, l: Listing, id: string, now: int) returns (error: Option<Error>)
    modifies store`plugins, store`releases
    ensures match InsertImported(old(store.Contents()), l, id, now)
            case Err(e) => error == Some(e)
            case Ok(d) => error.None? && store.Contents() == d
  {
    var ok := store.InsertPlugin(l.id, ImportedPlugin(l));
    if !ok {
      return Some(ConstraintViolated);
    }
    var notes := ValidateReleaseNotes(l.notes);
    if notes.Err? {
      return Some(BadSeedNotes);
    }
    ok := store.InsertRelease(ImportedRelease(l, notes.value, id, now));
    error := if ok then None else Some(ConstraintViolated);
  }

  lemma {:induction false} ErrorStays(db: Db, ls: seq<Listing>, ids: seq<string>, now: int, i: nat)
    requires |ids| == |ls| && i <= |ls|
    requires ImportAll(db, ls[..i], ids[..i], now).Err?
    ensures ImportAll(db, ls, ids, now) == ImportAll(db, ls[..i], ids[..i], now)
  {
    if i == |ls| {
      assert ls[..i] == ls && ids[..i] == ids;
    } else {
      assert ls[..|ls| - 1][..i] == ls[..i] && ids[..|ls| - 1][..i] == ids[..i];
      ErrorStays(db, ls[..|ls| - 1], ids[..|ls| - 1], now, i);
    }
  }

  // ---- a captured catalogue comes back ----

  ghost predicate Distinct(ids: seq<string>) {
    forall i, j :: 0 <= i < j < |ids| ==> ids[i] != ids[j]
  }

  predicate StartsWithNul(s: string) {
    s != "" && s[0] == '\0'
  }

  /** What the importer demands of a listing beyond what the document's validator does: notes the
      validator of notes accepts, and a name and a version the schema does not take for empty. */
  predicate Importable(l: Listing) {
    ValidateReleaseNotes(l.notes).Ok? && !StartsWithNul(l.name) && !StartsWithNul(l.version)
  }

  ghost predicate AllImportable(ls: seq<Listing>) {
    forall i :: 0 <= i < |ls| ==> Importable(ls[i])
  }

  /** The listings with their notes in normal form. */
  ghost function Normalised(ls: seq<Listing>): (r: seq<Listing>)
    requires AllImportable(ls)
    ensures |r| == |ls|
    ensures forall i :: 0 <= i < |ls| ==> r[i] == ls[i].(notes := ValidateReleaseNotes(ls[i].notes).value)
  {
    seq(|ls|, i requires 0 <= i < |ls| => ls[i].(notes := ValidateReleaseNotes(ls[i].notes).value))
  }

  function PluginsOf(m: seq<Listing>): map<string, Plugin> {
    if m == [] then map[]
    else PluginsOf(m[..|m| - 1])[m[|m| - 1].id := ImportedPlugin(m[|m| - 1])]
  }

  function ReleasesOf(m: seq<Listing>, ids: seq<string>, now: int): (r: seq<Release>)
    requires |ids| == |m|
    ensures |r| == |m|
    ensures forall i :: 0 <= i < |m| ==> r[i] == ImportedRelease(m[i], m[i].notes, ids[i], now)
  {
    seq(|m|, i requires 0 <= i < |m| => ImportedRelease(m[i], m[i].notes, ids[i], now))
  }

  /** `db` with the listings `m`, whose notes are in normal form, imported into it. */
  function Holding(db: Db, m: seq<Listing>, ids: seq<string>, now: int): Db
    requires |ids| == |m|
  {
    db.(plugins := PluginsOf(m), releases := ReleasesOf(m, ids, now))
  }

  lemma {:induction false} PluginOf(m: seq<Listing>, k: nat)
    requires k < |m| && DistinctIds(m)
    ensures m[k].id in PluginsOf(m) && PluginsOf(m)[m[k].id] == ImportedPlugin(m[k])
  {
    if k < |m| - 1 {
      PluginOf(m[..|m| - 1], k);
    }
  }

  lemma {:induction false} NoOtherPlugin(m: seq<Listing>, p: string)
    requires forall i :: 0 <= i < |m| ==> m[i].id != p
    ensures p !in PluginsOf(m)
  {
    if m != [] {
      NoOtherPlugin(m[..|m| - 1], p);
    }
  }

  /** Importing a valid catalogue into an empty database succeeds, and holds it, exactly when every
      listing is importable. */
  lemma {:induction false} ImportSucceeds(db: Db, ls: seq<Listing>, ids: seq<string>, now: int)
    requires db.plugins == map[] && db.releases == []
    requires |ids| == |ls| && Distinct(ids) && AllRender(ls) && DistinctIds(ls)
    ensures ImportAll(db, ls, ids, now).Ok? <==> AllImportable(ls)
    ensures AllImportable(ls) ==> ImportAll(db, ls, ids, now) == Ok(Holding(db, Normalised(ls), ids, now))
  {
    hide AllImportable, AllRender, Renders, InsertImported, Holding, Normalised, Distinct, DistinctIds;
    if ls == [] {
      NothingToImport(db, ls, ids, now);
    } else {
      var n := |ls| - 1;
      FirstOnes(ls, ids, n);
      ImportSucceeds(db, ls[..n], ids[..n], now);
      if AllImportable(ls[..n]) {
        OneMore(db, ls, ids, now);
      }
    }
  }

  lemma NothingToImport(db: Db, ls: seq<Listing>, ids: seq<string>, now: int)
    requires db.plugins == map[] && db.releases == [] && ls == [] && ids == []
    ensures AllImportable(ls) && Holding(db, Normalised(ls), ids, now) == db
  {
    assert ReleasesOf([], ids, now) == [];
  }

  lemma FirstOnes(ls: seq<Listing>, ids: seq<string>, n: nat)
    requires n < |ls| == |ids| && Distinct(ids) && DistinctIds(ls) && AllRender(ls)
    ensures Distinct(ids[..n]) && DistinctIds(ls[..n]) && AllRender(ls[..n]) && Renders(ls[n])
    ensures AllImportable(ls) ==> AllImportable(ls[..n])
  {
    hide Renders, Importable;
  }

  /** The last listing of a catalogue, once the ones before it are in. */
  lemma OneMore(db: Db, ls: seq<Listing>, ids: seq<string>, now: int)
    requires db.plugins == map[] && db.releases == []
    requires ls != [] && |ids| == |ls| && Distinct(ids) && DistinctIds(ls) && Renders(ls[|ls| - 1])
    requires AllImportable(ls[..|ls| - 1])
    ensures var n := |ls| - 1;
            var d := Holding(db, Normalised(ls[..n]), ids[..n], now);
            && (InsertImported(d, ls[n], ids[n], now).Ok? <==> AllImportable(ls))
            && (AllImportable(ls) ==> InsertImported(d, ls[n], ids[n], now) == Ok(Holding(db, Normalised(ls), ids, now)))
  {
    hide Importable, InsertImported, Renders;
    var n := |ls| - 1;
    var before := Normalised(ls[..n]);
    var d := Holding(db, before, ids[..n], now);
    NoOtherPlugin(before, ls[n].id);
    InsertFitsWhen(d, ls[n], ids[n], now);
    assert AllImportable(ls) <==> Importable(ls[n]) by {
      assert forall i :: 0 <= i < n ==> ls[..n][i] == ls[i];
    }
    if AllImportable(ls) {
      var m := Normalised(ls);
      assert before == m[..n];
      assert Importable(ls[n]);
      HoldsOneMore(db, m, ids, now);
    }
  }

  function WithImported(d: Db, l: Listing, id: string, now: int): Db {
    d.(plugins := d.plugins[l.id := ImportedPlugin(l)], releases := d.releases + [ImportedRelease(l, l.notes, id, now)])
  }

  /** A listing that renders goes into a table that has neither its id nor the release id, exactly
      when it is importable. */
  lemma InsertFitsWhen(d: Db, l: Listing, id: string, now: int)
    requires Renders(l) && l.id !in d.plugins
    requires forall i :: 0 <= i < |d.releases| ==> d.releases[i].id != id && d.releases[i].plugin != l.id
    ensures InsertImported(d, l, id, now).Ok? <==> Importable(l)
    ensures Importable(l) ==>
              InsertImported(d, l, id, now) == Ok(WithImported(d, l.(notes := ValidateReleaseNotes(l.notes).value), id, now))
  {
    hide ValidateReleaseNotes, RowWithId, RowWithVersion, LiveRow, PendingRow, RowChecks, PluginChecks;
    ImportedPluginChecks(l);
    if ValidateReleaseNotes(l.notes).Ok? {
      var row := ImportedRelease(l, ValidateReleaseNotes(l.notes).value, id, now);
      ImportedRowChecks(l, id, now);
      AdmitFresh(d.accounts, d.plugins[l.id := ImportedPlugin(l)], d.releases, row);
    }
  }

  lemma HoldsOneMore(db: Db, m: seq<Listing>, ids: seq<string>, now: int)
    requires m != [] && |ids| == |m|
    ensures WithImported(Holding(db, m[..|m| - 1], ids[..|m| - 1], now), m[|m| - 1], ids[|m| - 1], now)
         == Holding(db, m, ids, now)
  {
    var n := |m| - 1;
    assert ReleasesOf(m, ids, now) == ReleasesOf(m[..n], ids[..n], now) + [ImportedRelease(m[n], m[n].notes, ids[n], now)];
  }

  lemma ImportedRowChecks(l: Listing, id: string, now: int)
    requires Renders(l) && ValidateReleaseNotes(l.notes).Ok?
    ensures RowChecks(ImportedRelease(l, ValidateReleaseNotes(l.notes).value, id, now)) <==> !StartsWithNul(l.version)
  {
    hide IsPluginId, ValidateReleaseNotes, IsDigestHex;
    AcceptedAreFixedPoints(l.notes);
  }

  lemma ImportedPluginChecks(l: Listing)
    requires Renders(l)
    ensures PluginChecks(l.id, ImportedPlugin(l)) <==> !StartsWithNul(l.name)
  {
    hide ReleaseProblem;
    SqlLengthOfNulFree(l.id);
  }

  lemma AdmitFresh(accounts: map<string, Account>, plugins: map<string, Plugin>, rs: seq<Release>, row: Release)
    requires row.plugin in plugins && row.submittedBy.None? && row.reviewedBy.None?
    requires forall i :: 0 <= i < |rs| ==> rs[i].id != row.id && rs[i].plugin != row.plugin
    ensures InsertAdmitted(accounts, plugins, rs, row) <==> RowChecks(row)
  {
    hide RowChecks;
  }

  /** A document the validator accepts and the importer does not: its one listing's name starts with
      NUL, which is neither trimmed nor counted. */
  lemma NulNameIsRefused(id: string, now: int)
    ensures var l := Listing("ab", "\0x", "", "", "", "1", "https://h", ZERO_DIGEST, "", None, "");
            NewIndexOf([l]).Some? && ImportTx(EMPTY_DB, [l], [id], now) == (EMPTY_DB, Err(ConstraintViolated))
  {
    var l := Listing("ab", "\0x", "", "", "", "1", "https://h", ZERO_DIGEST, "", None, "");
    OnlyListing(l, "\0x", "1", id, now);
  }

  lemma NulVersionIsRefused(id: string, now: int)
    ensures var l := Listing("ab", "x", "", "", "", "\01", "https://h", ZERO_DIGEST, "", None, "");
            NewIndexOf([l]).Some? && ImportTx(EMPTY_DB, [l], [id], now) == (EMPTY_DB, Err(ConstraintViolated))
  {
    var l := Listing("ab", "x", "", "", "", "\01", "https://h", ZERO_DIGEST, "", None, "");
    OnlyListing(l, "x", "\01", id, now);
  }

  lemma OnlyListing(l: Listing, name: string, version: string, id: string, now: int)
    requires l == Listing("ab", name, "", "", "", version, "https://h", ZERO_DIGEST, "", None, "")
    requires name != "" && !IsSpace(name[0]) && version != "" && !IsSpace(version[0])
    requires StartsWithNul(name) || StartsWithNul(version)
    ensures NewIndexOf([l]).Some? && ImportTx(EMPTY_DB, [l], [id], now) == (EMPTY_DB, Err(ConstraintViolated))
  {
    OnlyListingRenders(l);
    assert SortBy([l], ListingId) == [l] by {
      SortStep([l], 0, ListingId);
      assert [l][..1] == [l] && [l][..0] == [];
    }
    assert ImportAll(EMPTY_DB, [l], [id], now) == Err(ConstraintViolated) by {
      OnlyListingRefused(l, id, now);
      assert [l][..0] == [] && [id][..0] == [];
    }
  }

  lemma OnlyListingRenders(l: Listing)
    requires l.id == "ab" && l.url == "https://h" && l.sha256 == ZERO_DIGEST
    requires l.name != "" && !IsSpace(l.name[0]) && l.version != "" && !IsSpace(l.version[0])
    ensures Renders(l)
  {
    TrimKeepsFirst(l.name, IsSpace);
    TrimKeepsFirst(l.version, IsSpace);
    var scheme := l.url[..|HTTPS_PREFIX|];
    assert scheme == HTTPS_PREFIX && FoldAscii(scheme) == HTTPS_PREFIX;
  }

  lemma OnlyListingRefused(l: Listing, id: string, now: int)
    requires Renders(l) && l.notes == "" && (StartsWithNul(l.name) || StartsWithNul(l.version))
    ensures InsertImported(EMPTY_DB, l, id, now) == Err(ConstraintViolated)
  {
    hide Renders, PluginChecks, RowChecks;
    AcceptedAreFixedPoints("");
    ImportedPluginChecks(l);
    ImportedRowChecks(l, id, now);
  }

  lemma {:induction false} ImportedRows(plugins: map<string, Plugin>, rs: seq<Release>)
    requires forall i :: 0 <= i < |rs| ==> Joined(plugins, rs[i])
    requires forall i, j :: 0 <= i < j < |rs| ==> TextLess(rs[i].plugin, rs[j].plugin)
    ensures |ListListings(plugins, rs)| == |rs|
    ensures forall i :: 0 <= i < |rs| ==>
              Joined(plugins, rs[i]) && ListListings(plugins, rs)[i] == RowOf(plugins[rs[i].plugin], rs[i])
  {
    if rs != [] {
      var init, last := rs[..|rs| - 1], rs[|rs| - 1];
      ImportedRows(plugins, init);
      if init != [] {
        NotBoth(init[|init| - 1].plugin, last.plugin);
      }
    }
  }

  /** Importing a valid document makes the index exactly that document, sorted by id, with its notes
      in normal form. */
  lemma ImportedIndex(db: Db, ls: seq<Listing>, ids: seq<string>, now: int)
    requires db.plugins == map[] && db.releases == []
    requires |ids| == |ls| && Distinct(ids) && AllRender(ls) && Increasing(ls, ListingId) && AllImportable(ls)
    ensures ImportAll(db, ls, ids, now).Ok?
    ensures ListingsOf(ImportAll(db, ls, ids, now).value) == Some(Normalised(ls))
  {
    IncreasingIsDistinct(ls);
    ImportSucceeds(db, ls, ids, now);
    var m := Normalised(ls);
    forall i | 0 <= i < |m|
      ensures m[i].sha256 != ""
    {
      assert Renders(ls[i]);
    }
    forall i, j | 0 <= i < j < |m|
      ensures TextLess(m[i].id, m[j].id)
    {
      assert TextLess(ListingId(ls[i]), ListingId(ls[j]));
    }
    HeldIndex(db, m, ids, now);
  }

  lemma HeldIndex(db: Db, m: seq<Listing>, ids: seq<string>, now: int)
    requires |ids| == |m|
    requires forall i :: 0 <= i < |m| ==> m[i].sha256 != ""
    requires forall i, j :: 0 <= i < j < |m| ==> TextLess(m[i].id, m[j].id)
    ensures ListingsOf(Holding(db, m, ids, now)) == Some(m)
  {
    IncreasingIsDistinct(m);
    var plugins, rs := PluginsOf(m), ReleasesOf(m, ids, now);
    forall i | 0 <= i < |m|
      ensures Joined(plugins, rs[i]) && plugins[rs[i].plugin] == ImportedPlugin(m[i])
    {
      PluginOf(m, i);
    }
    ImportedRows(plugins, rs);
    var rows := ListListings(plugins, rs);
    forall i | 0 <= i < |rows|
      ensures ListingFrom(rows[i]) == Some(m[i])
    {
      assert Joined(plugins, rs[i]);
    }
    assert Rendered(rows).value == m;
  }

  lemma IncreasingIsDistinct(ls: seq<Listing>)
    requires Increasing(ls, ListingId)
    ensures DistinctIds(ls)
  {
    forall i, j | 0 <= i < j < |ls|
      ensures ls[i].id != ls[j].id
    {
      assert TextLess(ListingId(ls[i]), ListingId(ls[j]));
      TextLessIrreflexive(ls[i].id);
    }
  }

  /** The catalogue a service exported, replayed into an empty database, is the catalogue it serves. */
  lemma SeedRoundTrip(exported: seq<Listing>, db: Db, ids: seq<string>, now: int)
    requires exported != [] && AllRender(exported) && Increasing(exported, ListingId)
    requires forall i :: 0 <= i < |exported| ==> StoredNotes(exported[i].notes) && Importable(exported[i])
    requires db.plugins == map[] && db.releases == [] && ImportCount(db.audit) == 0
    requires |ids| == |exported| && Distinct(ids)
    ensures ImportTx(db, exported, ids, now).1 == Ok(ImportOutcome(|exported|, None, 0))
    ensures ListingsOf(ImportTx(db, exported, ids, now).0) == Some(exported)
  {
    hide StoredNotes, Renders, ImportAll, ListListings, SortBy;
    IncreasingIsDistinct(exported);
    SortOfIncreasing(exported, ListingId);
    forall i | 0 <= i < |exported|
      ensures ValidateReleaseNotes(exported[i].notes) == Ok(exported[i].notes)
    {
      AcceptedAreFixedPoints(exported[i].notes);
    }
    ImportedIndex(db, exported, ids, now);
    assert Normalised(exported) == exported;
  }
}
