/** Every transaction, whatever its result, keeps the database's invariants and only evolves it. */
module Commits {
  import opened Basics
  import opened Notes
  import opened Submissions
  import opened Registry
  import opened Tables
  import opened Publishing
  import opened Reviewing
  import opened Ownership
  import opened Catalogue
  import opened Seeding
  import opened Invariants
  import opened AuditTrail

  // ---- idempotency keys ----

  /** Key `k` answers for release `i`, which its account published. */
  ghost predicate KeyPoints(keys: map<(string, string), KeyRow>, rs: seq<Release>, k: (string, string), i: nat) {
    && k in keys && SqlLength(k.1) > 0 && i < |rs| && rs[i].id == keys[k].release
    && rs[i].source == Published && rs[i].submittedBy == Some(k.0)
  }

  /** A key row never exists without its release. */
  ghost predicate KeysPoint(keys: map<(string, string), KeyRow>, rs: seq<Release>) {
    forall k :: k in keys ==> exists i: nat :: KeyPoints(keys, rs, k, i)
  }

  /** A published release never exists without its key row. */
  ghost predicate RowsKeyed(keys: map<(string, string), KeyRow>, rs: seq<Release>) {
    forall i :: 0 <= i < |rs| && rs[i].source == Published ==> exists k :: KeyPoints(keys, rs, k, i)
  }

  /** No two keys answer for one release. */
  ghost predicate KeysInjective(keys: map<(string, string), KeyRow>) {
    forall k, l :: k in keys && l in keys && keys[k].release == keys[l].release ==> k == l
  }

  lemma KeysPointStays(keys: map<(string, string), KeyRow>, rs: seq<Release>, ss: seq<Release>)
    requires KeysPoint(keys, rs) && RowsEvolve(rs, ss)
    ensures KeysPoint(keys, ss)
  {
    forall k | k in keys
      ensures exists i: nat :: KeyPoints(keys, ss, k, i)
    {
      var i: nat :| KeyPoints(keys, rs, k, i);
      assert KeyPoints(keys, ss, k, i);
    }
  }

  lemma RowsKeyedStays(keys: map<(string, string), KeyRow>, rs: seq<Release>, ss: seq<Release>)
    requires RowsKeyed(keys, rs) && RowsEvolve(rs, ss)
    requires forall i :: |rs| <= i < |ss| ==> ss[i].source == Imported
    ensures RowsKeyed(keys, ss)
  {
    forall i | 0 <= i < |ss| && ss[i].source == Published
      ensures exists k :: KeyPoints(keys, ss, k, i)
    {
      assert RowEvolves(rs[i], ss[i]);
      var k :| KeyPoints(keys, rs, k, i);
      assert KeyPoints(keys, ss, k, i);
    }
  }

  lemma RecordedKeys(keys: map<(string, string), KeyRow>, rs: seq<Release>, ss: seq<Release>, key: (string, string),
                     hash: string)
    requires KeysPoint(keys, rs) && RowsKeyed(keys, rs) && KeysInjective(keys)
    requires RowsEvolve(rs, ss) && |ss| == |rs| + 1
    requires key !in keys && SqlLength(key.1) > 0 && NoRow(rs, ss[|rs|].id)
    requires ss[|rs|].source == Published && ss[|rs|].submittedBy == Some(key.0)
    ensures var ks := keys[key := KeyRow(hash, ss[|rs|].id)];
            KeysPoint(ks, ss) && RowsKeyed(ks, ss) && KeysInjective(ks)
  {
    hide KeysPoint, RowsKeyed, RowsEvolve;
    KeyIsNew(keys, rs, ss[|rs|].id);
    RecordedKeysPoint(keys, rs, ss, key, hash);
    RecordedRowsKeyed(keys, rs, ss, key, hash);
  }

  lemma KeyIsNew(keys: map<(string, string), KeyRow>, rs: seq<Release>, id: string)
    requires KeysPoint(keys, rs) && NoRow(rs, id)
    ensures forall k :: k in keys ==> keys[k].release != id
  {
    forall k | k in keys
      ensures keys[k].release != id
    {
      var i: nat :| KeyPoints(keys, rs, k, i);
    }
  }

  lemma KeyStillPoints(keys: map<(string, string), KeyRow>, rs: seq<Release>, ss: seq<Release>,
                       key: (string, string), row: KeyRow, k: (string, string), i: nat)
    requires KeyPoints(keys, rs, k, i) && RowsEvolve(rs, ss) && key !in keys
    ensures KeyPoints(keys[key := row], ss, k, i)
  {
    assert RowEvolves(rs[i], ss[i]);
  }

  lemma RecordedKeysPoint(keys: map<(string, string), KeyRow>, rs: seq<Release>, ss: seq<Release>, key: (string, string),
                          hash: string)
    requires KeysPoint(keys, rs) && RowsEvolve(rs, ss) && |ss| == |rs| + 1 && key !in keys && SqlLength(key.1) > 0
    requires ss[|rs|].source == Published && ss[|rs|].submittedBy == Some(key.0)
    ensures KeysPoint(keys[key := KeyRow(hash, ss[|rs|].id)], ss)
  {
    var row := KeyRow(hash, ss[|rs|].id);
    var ks := keys[key := row];
    forall k | k in ks
      ensures exists i: nat :: KeyPoints(ks, ss, k, i)
    {
      if k == key {
        assert KeyPoints(ks, ss, k, |rs|);
      } else {
        var i: nat :| KeyPoints(keys, rs, k, i);
        KeyStillPoints(keys, rs, ss, key, row, k, i);
      }
    }
  }

  lemma RecordedRowsKeyed(keys: map<(string, string), KeyRow>, rs: seq<Release>, ss: seq<Release>, key: (string, string),
                          hash: string)
    requires RowsKeyed(keys, rs) && RowsEvolve(rs, ss) && |ss| == |rs| + 1 && key !in keys && SqlLength(key.1) > 0
    requires ss[|rs|].source == Published && ss[|rs|].submittedBy == Some(key.0)
    ensures RowsKeyed(keys[key := KeyRow(hash, ss[|rs|].id)], ss)
  {
    var row := KeyRow(hash, ss[|rs|].id);
    var ks := keys[key := row];
    forall i | 0 <= i < |ss| && ss[i].source == Published
      ensures exists k :: KeyPoints(ks, ss, k, i)
    {
      if i == |rs| {
        assert KeyPoints(ks, ss, key, i);
      } else {
        assert RowEvolves(rs[i], ss[i]);
        var k :| KeyPoints(keys, rs, k, i);
        KeyStillPoints(keys, rs, ss, key, row, k, i);
      }
    }
  }

  // ---- plugins and grants ----

  ghost predicate PluginOk(id: string, p: Plugin) {
    IsPluginId(id) && TrimSpace(p.name) != "" && SqlLength(p.name) > 0 && (p.delistedAt.Some? <==> p.delistedReason.Some?)
  }

  ghost predicate PluginsOk(plugins: map<string, Plugin>) {
    forall p :: p in plugins ==> PluginOk(p, plugins[p])
  }

  ghost predicate GrantsOk(grants: map<(string, string), Role>, plugins: map<string, Plugin>) {
    forall g :: g in grants ==> g.0 in plugins
  }

  /** Accounts have names, and whoever holds a plugin is one of them. */
  ghost predicate AccountsOk(accounts: map<string, Account>, grants: map<(string, string), Role>) {
    "" !in accounts && forall g :: g in grants ==> g.1 in accounts
  }

  // ---- the whole database ----

  ghost predicate DbOk(db: Db) {
    && TableOk(db.releases) && ForeignKeysOk(db.plugins, db.releases)
    && PluginsOk(db.plugins) && GrantsOk(db.grants, db.plugins) && AccountsOk(db.accounts, db.grants)
    && KeysPoint(db.keys, db.releases) && RowsKeyed(db.keys, db.releases) && KeysInjective(db.keys)
    && LogOk(db.audit, db.releases)
  }

  /** What no transaction undoes. */
  ghost predicate DbEvolves(db: Db, d: Db) {
    && RowsEvolve(db.releases, d.releases) && LiveAdvances(db.releases, d.releases)
    && (forall k :: k in db.keys ==> k in d.keys && d.keys[k] == db.keys[k])
    && db.plugins.Keys <= d.plugins.Keys && db.accounts.Keys <= d.accounts.Keys
    && db.audit <= d.audit
    && (forall a :: CanPublish(db, a) ==> CanPublish(d, a))
  }

  lemma EvolvesReflexive(db: Db)
    ensures DbEvolves(db, db)
  {
  }

  lemma EvolvesTransitive(a: Db, b: Db, c: Db)
    requires DbEvolves(a, b) && DbEvolves(b, c)
    ensures DbEvolves(a, c)
  {
    LiveAdvancesTransitive(a.releases, b.releases, c.releases);
  }

  lemma EmptyDbOk()
    ensures DbOk(EMPTY_DB)
  {
  }

  /** A transaction that leaves the releases and keys alone and logs one event that is not about a
      release's state. */
  lemma QuietKeeps(db: Db, d: Db, e: Entry)
    requires DbOk(db) && d.releases == db.releases && d.keys == db.keys && d.audit == db.audit + [e]
    requires Neutral(e.event) && db.plugins.Keys <= d.plugins.Keys && PluginsOk(d.plugins)
    requires GrantsOk(d.grants, d.plugins) && d.accounts == db.accounts && AccountsOk(d.accounts, d.grants)
    ensures DbOk(d) && DbEvolves(db, d)
  {
    hide TableOk, KeysPoint, RowsKeyed, KeysInjective, LogOk, ForeignKeysOk, PluginsOk, GrantsOk, RowsEvolve, LiveAdvances;
    NeutralKeepsLog(db.audit, e, db.releases, d.releases);
    ForeignKeysGrow(db.plugins, d.plugins, db.releases);
    SameRowsEvolve(db.releases);
  }

  lemma ForeignKeysGrow(plugins: map<string, Plugin>, more: map<string, Plugin>, rs: seq<Release>)
    requires ForeignKeysOk(plugins, rs) && plugins.Keys <= more.Keys
    ensures ForeignKeysOk(more, rs)
  {
  }

  lemma SameRowsEvolve(rs: seq<Release>)
    ensures RowsEvolve(rs, rs) && LiveAdvances(rs, rs)
  {
  }

  // ---- one lemma for each transaction ----

  lemma SetTrustKeeps(db: Db, account: string, level: Trust, reviewer: string, rawNote: string)
    requires DbOk(db)
    ensures var d := SetTrustTx(db, account, level, reviewer, rawNote).0; DbOk(d) && DbEvolves(db, d)
  {
    hide TableOk, KeysPoint, RowsKeyed, KeysInjective, LogOk, ForeignKeysOk, RowsEvolve, LiveAdvances, DbEvolves;
    var d := SetTrustTx(db, account, level, reviewer, rawNote).0;
    if d == db {
      EvolvesReflexive(db);
    } else {
      QuietKeeps(db, d, d.audit[|d.audit| - 1]);
    }
  }

  lemma DelistKeeps(db: Db, plugin: string, reviewer: string, rawReason: string, now: int)
    requires DbOk(db)
    ensures var d := DelistTx(db, plugin, reviewer, rawReason, now).0; DbOk(d) && DbEvolves(db, d)
  {
    hide TableOk, KeysPoint, RowsKeyed, KeysInjective, LogOk, ForeignKeysOk, RowsEvolve, LiveAdvances, DbEvolves, GrantsOk, TrimSpace;
    var d := DelistTx(db, plugin, reviewer, rawReason, now).0;
    if d == db {
      EvolvesReflexive(db);
    } else {
      PluginUpdated(db.plugins, plugin, d.plugins[plugin]);
      QuietKeeps(db, d, d.audit[|d.audit| - 1]);
    }
  }

  lemma RelistKeeps(db: Db, plugin: string, reviewer: string, rawReason: string)
    requires DbOk(db)
    ensures var d := RelistTx(db, plugin, reviewer, rawReason).0; DbOk(d) && DbEvolves(db, d)
  {
    hide TableOk, KeysPoint, RowsKeyed, KeysInjective, LogOk, ForeignKeysOk, RowsEvolve, LiveAdvances, DbEvolves, GrantsOk, TrimSpace;
    var d := RelistTx(db, plugin, reviewer, rawReason).0;
    if d == db {
      EvolvesReflexive(db);
    } else {
      PluginUpdated(db.plugins, plugin, d.plugins[plugin]);
      QuietKeeps(db, d, d.audit[|d.audit| - 1]);
    }
  }

  lemma PluginUpdated(plugins: map<string, Plugin>, id: string, p: Plugin)
    requires PluginsOk(plugins) && PluginOk(id, p)
    ensures PluginsOk(plugins[id := p])
    ensures forall gs :: GrantsOk(gs, plugins) ==> GrantsOk(gs, plugins[id := p])
  {
  }

  lemma AddKeeps(db: Db, plugin: string, caller: string, target: Option<string>, role: Role)
    requires DbOk(db)
    ensures var d := AddTx(db, plugin, caller, target, role).0; DbOk(d) && DbEvolves(db, d)
  {
    hide TableOk, KeysPoint, RowsKeyed, KeysInjective, LogOk, ForeignKeysOk, RowsEvolve, LiveAdvances, DbEvolves, PluginsOk;
    var d := AddTx(db, plugin, caller, target, role).0;
    if d == db {
      EvolvesReflexive(db);
    } else {
      QuietKeeps(db, d, d.audit[|d.audit| - 1]);
    }
  }

  lemma RemoveKeeps(db: Db, plugin: string, caller: string, target: string)
    requires DbOk(db)
    ensures var d := RemoveTx(db, plugin, caller, target).0; DbOk(d) && DbEvolves(db, d)
  {
    hide TableOk, KeysPoint, RowsKeyed, KeysInjective, LogOk, ForeignKeysOk, RowsEvolve, LiveAdvances, DbEvolves, PluginsOk;
    var d := RemoveTx(db, plugin, caller, target).0;
    if d == db {
      EvolvesReflexive(db);
    } else {
      QuietKeeps(db, d, d.audit[|d.audit| - 1]);
    }
  }

  lemma ImportGrantKeeps(db: Db, plugin: string, account: string)
    requires DbOk(db)
    ensures var d := ImportGrantTx(db, plugin, account).0; DbOk(d) && DbEvolves(db, d)
  {
    hide TableOk, KeysPoint, RowsKeyed, KeysInjective, LogOk, ForeignKeysOk, RowsEvolve, LiveAdvances, DbEvolves;
    var d := ImportGrantTx(db, plugin, account).0;
    if d == db {
      EvolvesReflexive(db);
    } else {
      QuietKeeps(db, d, d.audit[|d.audit| - 1]);
    }
  }

  lemma ClaimKeeps(db: Db, raw: Claim, account: string)
    requires DbOk(db) && IsPluginId(raw.plugin)
    ensures var d := ClaimTx(db, raw, account).0; DbOk(d) && DbEvolves(db, d)
  {
    hide TableOk, KeysPoint, RowsKeyed, KeysInjective, LogOk, ForeignKeysOk, IsPublishableUrl, FieldFits, RowsEvolve, LiveAdvances, DbEvolves;
    var d := ClaimTx(db, raw, account).0;
    if d == db {
      EvolvesReflexive(db);
    } else {
      var c := TrimClaim(raw);
      NonEmptyTrims(raw.name);
      PluginUpdated(db.plugins, c.plugin, ClaimedPlugin(c));
      QuietKeeps(db, d, d.audit[|d.audit| - 1]);
    }
  }

  lemma NonEmptyTrims(s: string)
    ensures TrimSpace(TrimSpace(s)) == TrimSpace(s)
  {
    TrimOfTrimmed(TrimSpace(s), IsSpace);
  }

  // ---- reviewer decisions ----

  lemma RowsReviewed(rs: seq<Release>, k: nat, v: Review)
    requires UniqueIds(rs) && k < |rs| && rs[k].state == Pending
    ensures forall i :: 0 <= i < |rs| && i != k ==> ReviewWhere(rs, rs[k].id, v)[i] == rs[i]
  {
  }

  function RejectedRow(r: Release, reviewer: string, reason: string, now: int): Release {
    r.(state := Rejected, reviewedBy := Some(reviewer), reviewedAt := Some(now), note := Some(ByReviewer(reason)))
  }

  function ApprovedRow(r: Release, reviewer: string, note: string, now: int): Release {
    r.(state := Approved, reviewedBy := Some(reviewer), reviewedAt := Some(now), note := ApproveNote(note))
  }

  lemma ReviewDecides(rs: seq<Release>, k: nat, reviewer: string, note: string, now: int)
    requires StatesOk(rs) && TextsOk(rs) && k < |rs| && rs[k].state == Pending
    ensures Decides(rs[k], RejectedRow(rs[k], reviewer, note, now))
    ensures rs[k].sha256.Some? ==> Decides(rs[k], ApprovedRow(rs[k], reviewer, note, now))
  {
    hide TextOk;
    assert StateOk(rs[k]);
    assert TextOk(rs[k].version, rs[k].url, rs[k].sha256, rs[k].bytes, rs[k].notes);
  }

  lemma RejectKeeps(db: Db, id: string, reviewer: string, rawReason: string, now: int)
    requires DbOk(db)
    ensures var d := RejectTx(db, id, reviewer, rawReason, now).0; DbOk(d) && DbEvolves(db, d)
  {
    hide KeysPoint, RowsKeyed, KeysInjective, LogOk, ForeignKeysOk, PluginsOk, GrantsOk, Decides, StatesOk, TextsOk;
    hide UniqueVersions, PendingNewest, LiveKept, AutoRooted, OneApproved, RowsEvolve, LiveAdvances, RowWithId, TrimSpace;
    var d := RejectTx(db, id, reviewer, rawReason, now).0;
    if d != db {
      var k := PendingAt(db.releases, id).value;
      var reason := TrimSpace(rawReason);
      RowsReviewed(db.releases, k, Review(Rejected, reviewer, now, Some(ByReviewer(reason))));
      ReviewDecides(db.releases, k, reviewer, reason, now);
      DecisionKeeps(db, d, k, RejectedRow(db.releases[k], reviewer, reason, now), d.audit[|db.audit|]);
    } else {
      EvolvesReflexive(db);
    }
  }

  /** A decision on row `k`, with its audit row. */
  lemma DecisionKeeps(db: Db, d: Db, k: nat, s: Release, e: Entry)
    requires DbOk(db) && Decided(db.releases, d.releases, k, s) && Decides(db.releases[k], s)
    requires d == db.(releases := d.releases, audit := db.audit + [e])
    requires (e.event.ApproveEvent? && s.state == Approved && e.event.superseded == LiveId(db.releases, s.plugin))
          || (e.event.RejectEvent? && s.state == Rejected)
    requires e.event.release == s.id
    ensures DbOk(d) && DbEvolves(db, d)
  {
    hide KeysPoint, RowsKeyed, KeysInjective, LogOk, ForeignKeysOk, Decided, Decides, StatesOk, TextsOk;
    hide UniqueVersions, PendingNewest, LiveKept, AutoRooted;
    DecidedKeepsTable(db.releases, d.releases, k, s);
    DecidesEvolves(db.releases, d.releases, k, s);
    DecisionKeepsLog(db.audit, db.releases, d.releases, k, s, e);
    EvolvedRowsKeep(db, d);
  }

  lemma DecidesEvolves(rs: seq<Release>, ss: seq<Release>, k: nat, s: Release)
    requires Decided(rs, ss, k, s) && Decides(rs[k], s)
    ensures k < |rs| == |ss| && RowEvolves(rs[k], s)
  {
  }

  /** What the other tables need once the rows have evolved in place. */
  lemma EvolvedRowsKeep(db: Db, d: Db)
    requires DbOk(db) && RowsEvolve(db.releases, d.releases) && |d.releases| == |db.releases|
    requires d.keys == db.keys && d.plugins == db.plugins
    ensures ForeignKeysOk(d.plugins, d.releases)
    ensures KeysPoint(d.keys, d.releases) && RowsKeyed(d.keys, d.releases)
  {
    KeysPointStays(db.keys, db.releases, d.releases);
    RowsKeyedStays(db.keys, db.releases, d.releases);
    forall i | 0 <= i < |d.releases|
      ensures d.releases[i].plugin in d.plugins
    {
      assert RowEvolves(db.releases[i], d.releases[i]);
    }
  }

  /** Approving changes the row and retires the plugin's live one, if any. */
  lemma RowsApproved(rs: seq<Release>, k: nat, reviewer: string, note: string, now: int)
    requires UniqueIds(rs) && k < |rs| && rs[k].state == Pending
    ensures Decided(rs, ApprovedRows(rs, k, reviewer, note, now), k, ApprovedRow(rs[k], reviewer, note, now))
  {
    var w := WithoutLive(rs, rs[k].plugin);
    assert UniqueIds(w) by {
      forall i | 0 <= i < |rs|
        ensures w[i].id == rs[i].id
      {
      }
    }
    assert w[k] == rs[k];
    RowsReviewed(w, k, Review(Approved, reviewer, now, ApproveNote(note)));
  }

  lemma ApproveKeeps(db: Db, id: string, reviewer: string, rawNote: string, now: int)
    requires DbOk(db)
    ensures var d := ApproveTx(db, id, reviewer, rawNote, now).0; DbOk(d) && DbEvolves(db, d)
  {
    hide KeysPoint, RowsKeyed, KeysInjective, LogOk, ForeignKeysOk, PluginsOk, GrantsOk, Decides, Decided, StatesOk, TextsOk;
    hide UniqueVersions, PendingNewest, LiveKept, AutoRooted, OneApproved, RowsEvolve, LiveAdvances, RowWithId, TrimSpace;
    hide ApproveAdmitted;
    var d := ApproveTx(db, id, reviewer, rawNote, now).0;
    if d != db {
      var k := PendingAt(db.releases, id).value;
      var note := TrimSpace(rawNote);
      RowsApproved(db.releases, k, reviewer, note, now);
      ReviewDecides(db.releases, k, reviewer, note, now);
      DecisionKeeps(db, d, k, ApprovedRow(db.releases[k], reviewer, note, now), d.audit[|db.audit|]);
    } else {
      EvolvesReflexive(db);
    }
  }

  // ---- a fetch fills a blank ----

  function VerifiedRow(r: Release, c: Computed): Release {
    r.(sha256 := Some(c.digest), bytes := Some(c.bytes), verifiedAt := Some(c.at), note := Some(ReverifiedNote))
  }

  lemma RowsVerified(rs: seq<Release>, k: nat, c: Computed)
    requires TableOk(rs) && k < |rs| && rs[k].state == Pending && rs[k].verifiedAt.None?
    requires FetchInRange(Fetched(c))
    ensures Decided(rs, VerifyWhere(rs, rs[k].id, c), k, VerifiedRow(rs[k], c))
    ensures Decides(rs[k], VerifiedRow(rs[k], c))
    ensures forall i :: 0 <= i < |rs| ==>
              var s := VerifyWhere(rs, rs[k].id, c)[i];
              s.id == rs[i].id && s.source == rs[i].source && s.state == rs[i].state
  {
    hide UniqueVersions, PendingNewest, LiveKept, AutoRooted, OneApproved, TextOk, IsDigestHex;
    assert StateOk(rs[k]);
    TextFilled(rs[k], c);
  }

  lemma TextFilled(r: Release, c: Computed)
    requires TextOk(r.version, r.url, r.sha256, r.bytes, r.notes) && FetchInRange(Fetched(c))
    ensures TextOk(r.version, r.url, Some(c.digest), Some(c.bytes), r.notes)
  {
  }

  lemma ReverifyKeeps(db: Db, row: Release, reviewer: string, fetch: Fetch)
    requires DbOk(db) && FetchInRange(fetch)
    ensures var d := ReverifyTx(db, row, reviewer, fetch).0; DbOk(d) && DbEvolves(db, d)
  {
    hide KeysPoint, RowsKeyed, KeysInjective, LogOk, ForeignKeysOk, PluginsOk, GrantsOk, Decides, Decided, TableOk;
    hide RowsEvolve, LiveAdvances, RowWithId, FetchInRange;
    var d := ReverifyTx(db, row, reviewer, fetch).0;
    if d != db {
      var e := d.audit[|db.audit|];
      if fetch.FetchFailed? {
        QuietKeeps(db, d, e);
      } else {
        var k := PendingAt(db.releases, row.id).value;
        RowsVerified(db.releases, k, fetch.computed);
        DecidedKeepsTable(db.releases, d.releases, k, VerifiedRow(db.releases[k], fetch.computed));
        NeutralKeepsLog(db.audit, e, db.releases, d.releases);
        EvolvedRowsKeep(db, d);
      }
    } else {
      EvolvesReflexive(db);
    }
  }

  // ---- a publish ----

  /** What a decision hands to the transaction. */
  predicate VerdictOk(v: Verdict) {
    && FetchInRange(v.fetch) && v.state in {Pending, Approved}
    && (v.state == Approved <==> v.review == AutoPublished)
    && (v.state == Approved ==> v.fetch.Fetched?)
  }

  lemma DecideIsOk(lib: Lib, prev: Previous, trust: Trust, sub: Submission, fetch: Fetch)
    requires FetchInRange(fetch)
    ensures VerdictOk(Decide(lib, prev, trust, sub, fetch))
  {
    hide Reasons;
    ApprovedMeans(lib, prev, trust, sub, fetch);
  }

  lemma SubmittedTextOk(sub: Submission, f: Fetch)
    requires ValidSubmission(sub) && FetchInRange(f)
    ensures TextOk(sub.version, sub.url, FetchedDigest(f), if f.Fetched? then Some(f.computed.bytes) else None,
                   if sub.notes == "" then None else Some(sub.notes))
  {
    TrimKeepsFirst(sub.version, IsSpace);
  }

  /** The row a publish writes, once the checks have passed and the id is a fresh one. */
  lemma PublishRowIsSubmittable(db: Db, req: Request, v: Verdict, id: string, now: int)
    requires ValidSubmission(req.sub) && VerdictOk(v)
    requires NoRow(db.releases, id) && RecordRefusal(db, req, v).None?
    ensures Submittable(db.releases, PublishRow(req, v, id, now))
    ensures Submitted(db.releases, Retired(db.releases, req.sub.plugin, v) + [PublishRow(req, v, id, now)],
                      PublishRow(req, v, id, now))
  {
    hide ValidSubmission, TextOk, FetchInRange;
    SubmittedTextOk(req.sub, v.fetch);
    if v.state == Approved {
      var live := LiveRow(db.releases, req.sub.plugin).value;
      assert db.releases[live].state == Approved;
    }
  }

  lemma NarrowIsOk(v: Verdict, trustNow: Trust)
    requires VerdictOk(v)
    ensures VerdictOk(Narrow(v, trustNow))
  {
  }

  lemma RecordedKeeps(db: Db, req: Request, v: Verdict, id: string, now: int)
    requires DbOk(db) && ValidSubmission(req.sub) && VerdictOk(v) && SqlLength(req.key) > 0
    requires NoRow(db.releases, id) && RecordRefusal(db, req, v).None?
    ensures DbOk(Recorded(db, req, v, id, now)) && DbEvolves(db, Recorded(db, req, v, id, now))
  {
    hide KeysPoint, RowsKeyed, KeysInjective, LogOk, PluginsOk, Submittable, Submitted, ValidSubmission, VerdictOk;
    hide UniqueVersions, PendingNewest, LiveKept, AutoRooted, StatesOk, TextsOk, UniqueIds, OneApproved;
    hide RowsEvolve, LiveAdvances, RowWithVersion, LiveRow, NoRow, Waiting;
    var d := Recorded(db, req, v, id, now);
    var row := PublishRow(req, v, id, now);
    PublishRowIsSubmittable(db, req, v, id, now);
    SubmittedKeepsTable(db.releases, d.releases, row);
    RecordedKeepsLog(db, req, v, id, now);
    RecordedKeys(db.keys, db.releases, d.releases, (req.account, req.key), req.hash);
    RecordedForeignKeys(db, d, row);
  }

  lemma RecordedForeignKeys(db: Db, d: Db, row: Release)
    requires ForeignKeysOk(db.plugins, db.releases) && Submitted(db.releases, d.releases, row)
    requires d.plugins == db.plugins && row.plugin in db.plugins
    ensures ForeignKeysOk(d.plugins, d.releases)
  {
    forall i | 0 <= i < |d.releases|
      ensures d.releases[i].plugin in d.plugins
    {
      if i < |db.releases| {
        assert d.releases[i] == AfterSubmission(db.releases[i], row);
      }
    }
  }

  lemma RetiredIds(rs: seq<Release>, plugin: string, v: Verdict, id: string)
    ensures NoRow(Retired(rs, plugin, v), id) <==> NoRow(rs, id)
  {
    var r := Retired(rs, plugin, v);
    forall i | 0 <= i < |rs|
      ensures r[i].id == rs[i].id
    {
    }
  }

  /** A transaction that commits had a fresh id, a key, and nothing to refuse it for. */
  lemma CommittedMeans(db: Db, req: Request, verdict: Verdict, id: string, now: int)
    requires RecordTx(db, req, verdict, id, now).1.Ok?
    ensures var v := Narrow(verdict, TrustOf(db.trust, req.account));
            && RecordTx(db, req, verdict, id, now) == (Recorded(db, req, v, id, now), Ok(RecordedOutcome(db, req, v, id)))
            && RecordRefusal(db, req, v).None? && NoRow(db.releases, id) && SqlLength(req.key) > 0 && req.account in db.accounts
    ensures var ss := RecordTx(db, req, verdict, id, now).0.releases;
            |ss| == |db.releases| + 1 && RowSays(ss[|db.releases|], req, verdict.fetch, id, now)
  {
    hide RecordRefusal, Recorded, RecordedOutcome, RowChecks, RowWithVersion, LiveRow, PendingRow, Waiting, RowSays;
    var v := Narrow(verdict, TrustOf(db.trust, req.account));
    RetiredIds(db.releases, req.sub.plugin, v, id);
    RecordedSays(db, req, v, id, now);
  }

  lemma RecordedSays(db: Db, req: Request, v: Verdict, id: string, now: int)
    ensures var ss := Recorded(db, req, v, id, now).releases;
            && |ss| == |db.releases| + 1 && RowSays(ss[|db.releases|], req, v.fetch, id, now)
            && ss[|db.releases|].state == v.state && ss[|db.releases|].note == Some(v.review)
  {
    hide RowSays, Waiting, LiveRow;
    PublishRowSays(req, v, id, now);
  }

  lemma RecordKeeps(db: Db, req: Request, verdict: Verdict, id: string, now: int)
    requires DbOk(db) && ValidSubmission(req.sub) && VerdictOk(verdict)
    ensures var d := RecordTx(db, req, verdict, id, now).0; DbOk(d) && DbEvolves(db, d)
  {
    hide DbOk, DbEvolves, ValidSubmission, VerdictOk, Recorded, RecordedOutcome, RecordRefusal, InsertProblem;
    if RecordTx(db, req, verdict, id, now).1.Ok? {
      CommittedMeans(db, req, verdict, id, now);
      NarrowIsOk(verdict, TrustOf(db.trust, req.account));
      RecordedKeeps(db, req, Narrow(verdict, TrustOf(db.trust, req.account)), id, now);
    } else {
      EvolvesReflexive(db);
    }
  }

  // ---- the seed import ----

  /** Nothing but imported releases, one for each plugin. */
  ghost predicate AllImported(rs: seq<Release>) {
    && UniqueIds(rs)
    && (forall i, j :: 0 <= i < j < |rs| ==> rs[i].plugin != rs[j].plugin)
    && (forall i :: 0 <= i < |rs| ==> rs[i].source == Imported && rs[i].state == Approved && StateOk(rs[i]))
    && TextsOk(rs)
  }

  lemma AllImportedIsTableOk(rs: seq<Release>)
    requires AllImported(rs)
    ensures TableOk(rs)
  {
    forall i | 0 <= i < |rs|
      ensures HasLive(rs, rs[i].plugin) && rs[i].note != Some(AutoPublished)
    {
    }
  }

  ghost predicate ImportedSoFar(db: Db, d: Db) {
    && AllImported(d.releases) && ForeignKeysOk(d.plugins, d.releases) && PluginsOk(d.plugins)
    && d == db.(plugins := d.plugins, releases := d.releases)
  }

  lemma ImportedTextOk(l: Listing)
    requires Renders(l) && ValidateReleaseNotes(l.notes).Ok? && SqlLength(l.name) > 0 && SqlLength(l.version) > 0
    ensures var notes := ValidateReleaseNotes(l.notes).value;
            TextOk(l.version, l.url, Some(l.sha256), None, if notes == "" then None else Some(notes))
    ensures PluginOk(l.id, ImportedPlugin(l))
  {
    hide IsPluginId, IsDigestHex, ValidateReleaseNotes;
    AcceptedAreFixedPoints(l.notes);
  }

  lemma ImportOneKeeps(db: Db, d: Db, l: Listing, id: string, now: int)
    requires ImportedSoFar(db, d) && Renders(l) && InsertImported(d, l, id, now).Ok?
    ensures ImportedSoFar(db, InsertImported(d, l, id, now).value)
  {
    hide TextOk, PluginOk, Renders, ValidateReleaseNotes, SqlLength, IsDigestHex, HasHttpsPrefix;
    ImportedTextOk(l);
    var e := InsertImported(d, l, id, now).value;
    var row := e.releases[|d.releases|];
    assert NoRow(d.releases, id);
    forall i | 0 <= i < |d.releases|
      ensures d.releases[i].plugin != row.plugin && e.releases[i] == d.releases[i]
    {
    }
  }

  lemma {:induction false} ImportAllKeeps(db: Db, ls: seq<Listing>, ids: seq<string>, now: int)
    requires |ids| == |ls| && AllRender(ls) && ImportedSoFar(db, db)
    requires ImportAll(db, ls, ids, now).Ok?
    ensures ImportedSoFar(db, ImportAll(db, ls, ids, now).value)
  {
    hide ImportedSoFar, Renders, InsertImported;
    if ls != [] {
      ImportAllKeeps(db, ls[..|ls| - 1], ids[..|ls| - 1], now);
      assert Renders(ls[|ls| - 1]);
      ImportOneKeeps(db, ImportAll(db, ls[..|ls| - 1], ids[..|ls| - 1], now).value, ls[|ls| - 1], ids[|ls| - 1], now);
    }
  }

  lemma IndexRenders(seed: seq<Listing>)
    requires NewIndexOf(seed).Some?
    ensures AllRender(NewIndexOf(seed).value)
  {
    SortPermutes(seed, ListingId);
    SamePermutation(seed, SortBy(seed, ListingId));
  }

  function Head(rs: seq<Release>): Option<string> {
    if rs == [] then None else Some(rs[0].plugin)
  }

  lemma NoPluginsNoRows(db: Db)
    requires DbOk(db) && db.plugins == map[]
    ensures db.releases == [] && db.grants == map[] && db.keys == map[]
  {
    hide TableOk, LogOk, RowsKeyed, KeysInjective;
    var first := Head(db.releases);
    assert forall k, i: nat :: !KeyPoints(db.keys, db.releases, k, i);
    assert db.keys.Keys == {};
  }

  lemma ImportKeeps(db: Db, seed: seq<Listing>, ids: seq<string>, now: int)
    requires DbOk(db) && |ids| == |seed|
    ensures var d := ImportTx(db, seed, ids, now).0; DbOk(d) && DbEvolves(db, d)
  {
    var d := ImportTx(db, seed, ids, now).0;
    if d == db {
      EvolvesReflexive(db);
    } else {
      hide DbOk, AllImported, TableOk, AllRender, ForeignKeysOk, PluginsOk, LogOk, SortBy, NewIndexOf, InsertImported;
      IndexKeepsSize(seed);
      IndexRenders(seed);
      NoPluginsNoRows(db);
      var ls := NewIndexOf(seed).value;
      EmptyIsImported(db);
      ImportAllKeeps(db, ls, ids, now);
      ImportCommitKeeps(db, d, d.audit[|db.audit|]);
    }
  }

  lemma EmptyIsImported(db: Db)
    requires db.plugins == map[] && db.releases == []
    ensures ImportedSoFar(db, db)
  {
  }

  lemma ImportCommitKeeps(db: Db, d: Db, e: Entry)
    requires DbOk(db) && db.plugins == map[] && db.releases == [] && db.grants == map[] && db.keys == map[]
    requires Neutral(e.event) && d == db.(plugins := d.plugins, releases := d.releases, audit := db.audit + [e])
    requires AllImported(d.releases) && ForeignKeysOk(d.plugins, d.releases) && PluginsOk(d.plugins)
    ensures DbOk(d) && DbEvolves(db, d)
  {
    hide TableOk, LogOk;
    AllImportedIsTableOk(d.releases);
    ImportKeepsLog(db.audit, e, d.releases);
  }
}
