/** Which answer each operation gives, and what it writes, said of the tables' columns. Every condition is
    one a caller could check in the tables before the call. */
module Answers {
  import opened Basics
  import opened Notes
  import opened Submissions
  import opened Versions
  import opened Registry
  import opened Tables
  import opened Publishing
  import opened Reviewing
  import opened Ownership
  import opened Catalogue
  import opened Seeding
  import opened Invariants
  import opened AuditTrail
  import opened Commits
  import opened Protocol
  import opened Safety

  /** What the answers rest on in a reachable state. */
  ghost predicate Tidy(db: Db) {
    && "" !in db.accounts && UniqueIds(db.releases) && OneApproved(db.releases)
    && (forall i :: 0 <= i < |db.releases| && db.releases[i].state == Pending ==>
          (db.releases[i].sha256.Some? <==> db.releases[i].verifiedAt.Some?))
    && (forall g :: g in db.grants ==> g.0 in db.plugins && g.1 in db.accounts)
    && (forall p :: p in db.plugins ==> (db.plugins[p].delistedAt.Some? <==> db.plugins[p].delistedReason.Some?))
  }

  lemma ReachableIsTidy(lib: Lib, w: World)
    requires Reachable(lib, w)
    ensures Tidy(w.db)
  {
    hide Reachable, WorldOk, UniqueVersions, PendingNewest, LiveKept, AutoRooted, TextsOk, ForeignKeysOk;
    hide KeysPoint, RowsKeyed, KeysInjective, LogOk;
    ReachableOk(lib, w);
    DbIn(lib, w);
    forall i | 0 <= i < |w.db.releases|
      ensures StateOk(w.db.releases[i])
    {
    }
    forall p | p in w.db.plugins
      ensures PluginOk(p, w.db.plugins[p])
    {
    }
  }

  /** An id names one row or none. */
  lemma RowNamed(rs: seq<Release>, id: string)
    requires UniqueIds(rs)
    ensures RowWithId(rs, id).None? <==> forall j :: 0 <= j < |rs| ==> rs[j].id != id
    ensures RowWithId(rs, id).Some? ==> forall j :: 0 <= j < |rs| && rs[j].id == id ==> j == RowWithId(rs, id).value
  {
  }

  // ---- Approve ----

  /** Every answer of an approval: a pending release whose bytes were read is approved by any account,
      whether or not another release of its plugin is live. */
  lemma ApproveAnswers(lib: Lib, w: World, release: string, reviewer: string, rawNote: string, now: int)
    requires Reachable(lib, w)
    ensures var rs, r := w.db.releases, ApproveTx(w.db, release, reviewer, rawNote, now).1;
            var fits := ByteLen(TrimSpace(rawNote)) <= 2048;
            && (r.Ok? <==>
                  && fits && reviewer in w.db.accounts
                  && exists k :: 0 <= k < |rs| && rs[k].id == release && rs[k].state == Pending && rs[k].verifiedAt.Some?)
            && (r == Err(ReasonTooLong) <==> !fits)
            && (r == Err(NoSuchRelease) <==> fits && forall k :: 0 <= k < |rs| ==> rs[k].id != release)
            && (r == Err(NotPending) <==> fits && exists k :: 0 <= k < |rs| && rs[k].id == release && rs[k].state != Pending)
            && (r == Err(NotVerifiedYet) <==>
                  fits && exists k :: 0 <= k < |rs| && rs[k].id == release && rs[k].state == Pending && rs[k].verifiedAt.None?)
  {
    hide Reachable, TrimSpace, ByteLen, RowWithId, LiveRow, ApproveAdmitted, UniqueIds, OneApproved;
    ReachableIsTidy(lib, w);
    RowNamed(w.db.releases, release);
    ApproveSucceedsWhen(w.db, release, reviewer, rawNote, now);
  }

  /** What an approval answers and logs: the row's plugin and version, its hash, and the id of the release
      that was live, if there was one. */
  lemma ApproveSays(lib: Lib, w: World, release: string, reviewer: string, rawNote: string, now: int, k: nat)
    requires Reachable(lib, w) && ApproveTx(w.db, release, reviewer, rawNote, now).1.Ok?
    requires k < |w.db.releases| && w.db.releases[k].id == release
    ensures var (d, r) := ApproveTx(w.db, release, reviewer, rawNote, now);
            var rs, row, out := w.db.releases, w.db.releases[k], r.value;
            && out == Decision(release, row.plugin, row.version, out.superseded) && row.sha256.Some?
            && (forall j :: 0 <= j < |rs| && rs[j].plugin == row.plugin && rs[j].state == Approved ==> out.superseded == Some(rs[j].id))
            && ((forall j :: 0 <= j < |rs| ==> !(rs[j].plugin == row.plugin && rs[j].state == Approved)) ==> out.superseded == None)
            && d.audit == w.db.audit + [Entry(ByAccount(reviewer),
                                              ApproveEvent(release, row.plugin, row.version, row.sha256.value, out.superseded, TrimSpace(rawNote)))]
  {
    hide Reachable, TrimSpace, ByteLen, RowWithId, LiveRow, ApproveAdmitted, UniqueIds, ApprovedRows;
    ReachableIsTidy(lib, w);
    RowNamed(w.db.releases, release);
  }

  // ---- Reject ----

  lemma RejectAnswers(lib: Lib, w: World, release: string, reviewer: string, rawReason: string, now: int)
    requires Reachable(lib, w)
    ensures var rs, r := w.db.releases, RejectTx(w.db, release, reviewer, rawReason, now).1;
            var reason := TrimSpace(rawReason);
            var fits := reason != "" && ByteLen(reason) <= 2048;
            && (r.Ok? <==>
                  && fits && reviewer in w.db.accounts
                  && exists k :: 0 <= k < |rs| && rs[k].id == release && rs[k].state == Pending)
            && (r == Err(NoReason) <==> reason == "")
            && (r == Err(ReasonTooLong) <==> ByteLen(reason) > 2048)
            && (r == Err(NoSuchRelease) <==> fits && forall k :: 0 <= k < |rs| ==> rs[k].id != release)
            && (r == Err(NotPending) <==> fits && exists k :: 0 <= k < |rs| && rs[k].id == release && rs[k].state != Pending)
  {
    hide Reachable, TrimSpace, RowWithId, UniqueIds, OneApproved;
    ReachableIsTidy(lib, w);
    RowNamed(w.db.releases, release);
  }

  /** A rejection records who, when and why, in the row and in the log. */
  lemma RejectSays(lib: Lib, w: World, release: string, reviewer: string, rawReason: string, now: int, k: nat)
    requires Reachable(lib, w) && RejectTx(w.db, release, reviewer, rawReason, now).1.Ok?
    requires k < |w.db.releases| && w.db.releases[k].id == release
    ensures var (d, r) := RejectTx(w.db, release, reviewer, rawReason, now);
            var row := w.db.releases[k];
            && r == Ok(Decision(release, row.plugin, row.version, None)) && |d.releases| == |w.db.releases|
            && d.releases[k] == row.(state := Rejected, reviewedBy := Some(reviewer), reviewedAt := Some(now),
                                     note := Some(ByReviewer(TrimSpace(rawReason))))
            && d.audit == w.db.audit + [Entry(ByAccount(reviewer), RejectEvent(release, row.plugin, row.version, TrimSpace(rawReason)))]
  {
    hide Reachable, TrimSpace, ByteLen, RowWithId, UniqueIds, OneApproved;
    ReachableIsTidy(lib, w);
    RowNamed(w.db.releases, release);
  }

  // ---- Reverify ----

  lemma ReverifyAnswers(lib: Lib, w: World, release: string, reviewer: string, fetch: Fetch)
    requires Reachable(lib, w)
    ensures var rs, r := w.db.releases, ReverifyAlone(w.db, release, reviewer, fetch).1;
            && (r.Ok? <==>
                  && reviewer in w.db.accounts
                  && exists k :: 0 <= k < |rs| && rs[k].id == release && rs[k].state == Pending && rs[k].verifiedAt.None?)
            && (r == Err(NoSuchRelease) <==> forall k :: 0 <= k < |rs| ==> rs[k].id != release)
            && (r == Err(NotPending) <==> exists k :: 0 <= k < |rs| && rs[k].id == release && rs[k].state != Pending)
            && (r == Err(AlreadyVerified) <==>
                  exists k :: 0 <= k < |rs| && rs[k].id == release && rs[k].state == Pending && rs[k].verifiedAt.Some?)
  {
    hide Reachable, RowWithId, UniqueIds, OneApproved;
    ReachableIsTidy(lib, w);
    RowNamed(w.db.releases, release);
    ReverifySucceedsWhen(w.db, release, reviewer, fetch);
  }

  /** One that reads the bytes fills the row with what it computed; one that does not leaves it. Either is
      logged, with the digest or the failure. */
  lemma ReverifyFills(lib: Lib, w: World, release: string, reviewer: string, fetch: Fetch, k: nat)
    requires Reachable(lib, w) && ReverifyAlone(w.db, release, reviewer, fetch).1.Ok?
    requires k < |w.db.releases| && w.db.releases[k].id == release
    ensures var (d, r) := ReverifyAlone(w.db, release, reviewer, fetch);
            var row := w.db.releases[k];
            && |d.releases| == |w.db.releases| && (forall i :: 0 <= i < |d.releases| && i != k ==> d.releases[i] == w.db.releases[i])
            && (match fetch
                case Fetched(c) =>
                  && d.releases[k] == row.(sha256 := Some(c.digest), bytes := Some(c.bytes), verifiedAt := Some(c.at), note := Some(ReverifiedNote))
                  && r == Ok(Verification(release, row.plugin, row.version, Some(c), None))
                  && d.audit == w.db.audit + [Entry(ByAccount(reviewer), ReverifyEvent(release, row.plugin, row.version, Some(c.digest), None))]
                case FetchFailed(why) =>
                  && d.releases[k] == row && r == Ok(Verification(release, row.plugin, row.version, None, Some(why)))
                  && d.audit == w.db.audit + [Entry(ByAccount(reviewer), ReverifyEvent(release, row.plugin, row.version, None, Some(why)))])
  {
    hide Reachable, RowWithId, OneApproved;
    ReachableIsTidy(lib, w);
    RowNamed(w.db.releases, release);
    ReverifySucceedsWhen(w.db, release, reviewer, fetch);
  }

  // ---- SetTrust, Delist, Relist ----

  lemma SetTrustAnswers(lib: Lib, w: World, account: string, level: Trust, reviewer: string, rawNote: string)
    requires Reachable(lib, w)
    ensures var (d, r) := SetTrustTx(w.db, account, level, reviewer, rawNote);
            var note := TrimSpace(rawNote);
            && (r.Ok? <==> note != "" && ByteLen(note) <= 2048 && account in w.db.accounts && reviewer in w.db.accounts)
            && (r == Err(NoTrustReason) <==> note == "") && (r == Err(ReasonTooLong) <==> ByteLen(note) > 2048)
            && (r == Err(NoSuchAccount) <==> note != "" && ByteLen(note) <= 2048 && account !in w.db.accounts)
            && (r.Ok? ==>
                  && d.trust == w.db.trust[account := level]
                  && d.audit == w.db.audit + [Entry(ByAccount(reviewer),
                                                    TrustEvent(account, if account in w.db.trust then w.db.trust[account] else New, level, note))])
  {
    hide Reachable, TrimSpace, UniqueIds, OneApproved;
    ReachableIsTidy(lib, w);
  }

  lemma DelistAnswers(lib: Lib, w: World, plugin: string, reviewer: string, rawReason: string, now: int)
    requires Reachable(lib, w)
    ensures var rs, (d, r) := w.db.releases, DelistTx(w.db, plugin, reviewer, rawReason, now);
            var reason := TrimSpace(rawReason);
            var fits := reason != "" && ByteLen(reason) <= 2048;
            && (r.Ok? <==> fits && plugin in w.db.plugins && w.db.plugins[plugin].delistedAt.None? && reviewer in w.db.accounts)
            && (r == Err(NoReason) <==> reason == "") && (r == Err(ReasonTooLong) <==> ByteLen(reason) > 2048)
            && (r == Err(NoSuchPlugin) <==> fits && plugin !in w.db.plugins)
            && (r == Err(AlreadyDelisted) <==> fits && plugin in w.db.plugins && w.db.plugins[plugin].delistedAt.Some?)
            && (r.Ok? ==>
                  && d.plugins == w.db.plugins[plugin := w.db.plugins[plugin].(delistedAt := Some(now), delistedReason := Some(reason))]
                  && exists version :: d.audit == w.db.audit + [Entry(ByAccount(reviewer), DelistEvent(plugin, reason, version))]
                       && (forall k :: 0 <= k < |rs| && rs[k].plugin == plugin && rs[k].state == Approved ==> version == rs[k].version)
                       && ((forall k :: 0 <= k < |rs| ==> !(rs[k].plugin == plugin && rs[k].state == Approved)) ==> version == ""))
  {
    hide Reachable, TrimSpace, UniqueIds, LiveRow;
    ReachableIsTidy(lib, w);
  }

  lemma RelistAnswers(lib: Lib, w: World, plugin: string, reviewer: string, rawReason: string)
    requires Reachable(lib, w)
    ensures var (d, r) := RelistTx(w.db, plugin, reviewer, rawReason);
            var reason := TrimSpace(rawReason);
            var fits := reason != "" && ByteLen(reason) <= 2048;
            && (r.Ok? <==> fits && plugin in w.db.plugins && w.db.plugins[plugin].delistedAt.Some? && reviewer in w.db.accounts)
            && (r == Err(NoReason) <==> reason == "") && (r == Err(ReasonTooLong) <==> ByteLen(reason) > 2048)
            && (r == Err(NoSuchPlugin) <==> fits && plugin !in w.db.plugins)
            && (r == Err(NotDelisted) <==> fits && plugin in w.db.plugins && w.db.plugins[plugin].delistedAt.None?)
            && (r.Ok? ==>
                  && d.plugins == w.db.plugins[plugin := w.db.plugins[plugin].(delistedAt := None, delistedReason := None)]
                  && w.db.plugins[plugin].delistedReason.Some?
                  && d.audit == w.db.audit + [Entry(ByAccount(reviewer), RelistEvent(plugin, reason, w.db.plugins[plugin].delistedReason.value))])
  {
    hide Reachable, TrimSpace, UniqueIds, OneApproved;
    ReachableIsTidy(lib, w);
  }

  // ---- owners ----

  /** The role granted is the role asked for, to the account asked for, and nothing else changes hands. */
  lemma AddAnswers(lib: Lib, w: World, plugin: string, caller: string, target: Option<string>, role: Role)
    requires Reachable(lib, w)
    ensures var grants, (d, r) := w.db.grants, AddTx(w.db, plugin, caller, target, role);
            var owns := (plugin, caller) in grants && grants[(plugin, caller)] == Owner;
            var found := target.Some? && target.value in w.db.accounts;
            && (r.Ok? <==> owns && found && !w.db.accounts[target.value].disabled && (plugin, target.value) !in grants)
            && (r == Err(NotAnOwner) <==> (plugin, caller) !in grants)
            && (r == Err(RoleCannotManageOwners) <==> (plugin, caller) in grants && grants[(plugin, caller)] == Maintainer)
            && (r == Err(NoSuchAccount) <==> owns && !found)
            && (r == Err(AccountDisabled) <==> owns && found && w.db.accounts[target.value].disabled)
            && (r == Err(AlreadyAnOwner) <==> owns && found && !w.db.accounts[target.value].disabled && (plugin, target.value) in grants)
            && (r.Ok? ==>
                  && d.grants == grants[(plugin, target.value) := role]
                  && d.audit == w.db.audit + [Entry(ByAccount(caller), OwnerAddEvent(plugin, target.value, role))])
  {
    hide Reachable, UniqueIds, OneApproved;
    ReachableIsTidy(lib, w);
  }

  lemma RemoveAnswers(lib: Lib, w: World, plugin: string, caller: string, removed: string)
    requires Reachable(lib, w)
    ensures var grants, (d, r) := w.db.grants, RemoveTx(w.db, plugin, caller, removed);
            var owns := (plugin, caller) in grants && grants[(plugin, caller)] == Owner;
            && (r.Ok? <==> owns && (plugin, removed) in grants && exists a :: (plugin, a) in grants && a != caller)
            && (r == Err(RoleCannotManageOwners) <==> (plugin, caller) in grants && grants[(plugin, caller)] == Maintainer)
            && (r == Err(LastOwner) <==> owns && forall a :: (plugin, a) in grants ==> a == caller)
            && (r == Err(NotAnOwner) <==>
                  (plugin, caller) !in grants || (owns && (plugin, removed) !in grants && exists a :: (plugin, a) in grants && a != caller))
            && (r.Ok? ==>
                  && d.grants == grants - {(plugin, removed)}
                  && d.audit == w.db.audit + [Entry(ByAccount(caller), OwnerRemoveEvent(plugin, removed))])
  {
    hide Reachable, UniqueIds, OneApproved, Holders;
    ReachableIsTidy(lib, w);
    if (plugin, caller) in w.db.grants {
      SoleHolder(w.db.grants, plugin, caller);
    }
  }

  lemma SoleHolder(grants: map<(string, string), Role>, plugin: string, caller: string)
    requires (plugin, caller) in grants
    ensures |Holders(grants, plugin)| <= 1 <==> forall a :: (plugin, a) in grants ==> a == caller
  {
    var hs := Holders(grants, plugin);
    assert forall a :: a in hs <==> (plugin, a) in grants;
    if a :| (plugin, a) in grants && a != caller {
      TwoAtLeast(hs, a, caller);
    } else {
      assert hs == {caller};
    }
  }

  /** A claim stores the trimmed fields, and makes the claimant the owner. */
  lemma ClaimAnswers(lib: Lib, w: World, claim: Claim, account: string)
    requires Reachable(lib, w) && IsPluginId(claim.plugin)
    ensures var (d, r) := ClaimTx(w.db, claim, account);
            var name, description := TrimSpace(claim.name), TrimSpace(claim.description);
            var author, homepage := TrimSpace(claim.author), TrimSpace(claim.homepage);
            var usable := && ByteLen(name) <= 120 && ByteLen(description) <= 500 && ByteLen(author) <= 120 && ByteLen(homepage) <= 500
                          && IsPlainText(name) && IsPlainText(description) && IsPlainText(author) && IsPlainText(homepage)
                          && name != "" && (homepage == "" || IsPublishableUrl(homepage));
            && (r.Ok? <==> usable && claim.plugin !in w.db.plugins && account in w.db.accounts)
            && (r == Err(BadListing) <==> !usable)
            && (r == Err(AlreadyClaimed) <==> usable && claim.plugin in w.db.plugins)
            && (r.Ok? ==>
                  && d.plugins == w.db.plugins[claim.plugin := Plugin(name, description, author, homepage, None, None)]
                  && d.grants == w.db.grants[(claim.plugin, account) := Owner]
                  && d.releases == w.db.releases
                  && d.audit == w.db.audit + [Entry(ByAccount(account), ClaimEvent(claim.plugin, name))])
  {
    hide Reachable, UniqueIds, OneApproved, TrimSpace, ByteLen, IsPlainText, IsPublishableUrl, PluginChecks;
    ReachableIsTidy(lib, w);
    if ClaimUsable(TrimClaim(claim)) {
      ClaimedPluginFits(TrimClaim(claim));
    }
  }

  lemma ImportGrantAnswers(db: Db, plugin: string, account: string)
    ensures var (d, r) := ImportGrantTx(db, plugin, account);
            && (r.Ok? <==> (plugin, account) in db.grants || (plugin in db.plugins && account in db.accounts))
            && ((plugin, account) in db.grants ==> d == db)
            && ((plugin, account) !in db.grants && r.Ok? ==>
                  && d.grants == db.grants[(plugin, account) := Owner]
                  && d.audit == db.audit + [Entry(BySystem, OwnerImportEvent(plugin, account))])
  {
  }

  // ---- the recording transaction ----

  ghost predicate VersionUsed(rs: seq<Release>, plugin: string, version: string) {
    exists i :: 0 <= i < |rs| && rs[i].plugin == plugin && rs[i].version == version
  }

  /** The plugin's live release, if any, is of this version. */
  ghost predicate LiveVersionIs(rs: seq<Release>, plugin: string, version: string) {
    exists i :: 0 <= i < |rs| && rs[i].plugin == plugin && rs[i].state == Approved && rs[i].version == version
  }

  /** What stands in the way of recording a publish that would go live or not, the first thing first. */
  ghost function FirstRefusal(db: Db, req: Request, live: bool, against: string): Option<Error> {
    var plugin, account, key := req.sub.plugin, req.account, (req.account, req.key);
    if (plugin, account) !in db.grants then Some(NotPublishable)
    else if account in db.trust && db.trust[account] == Blocked then Some(AccountBlocked)
    else if key in db.keys && db.keys[key].requestHash != req.hash then Some(IdempotencyKeyReused)
    else if key in db.keys then Some(Raced(db.keys[key].release))
    else if VersionUsed(db.releases, plugin, req.sub.version) then Some(VersionExists)
    else if live && !LiveVersionIs(db.releases, plugin, against) then Some(LiveReleaseChanged)
    else None
  }

  ghost predicate IdUnused(rs: seq<Release>, id: string) {
    forall i :: 0 <= i < |rs| ==> rs[i].id != id
  }

  predicate TrustedNow(db: Db, account: string) {
    account in db.trust && db.trust[account] == Trusted
  }

  /** Every answer of the transaction that records a publish: the first refusal, or success, unless the id
      is taken or the key is empty to SQL. */
  lemma RecordAnswers(lib: Lib, w: World, c: nat, req: Request, trust: Trust, prev: Previous, fetch: Fetch, id: string, now: int)
    requires Reachable(lib, w) && c in w.calls && w.calls[c] == PublishCall(req, Recording(trust, prev, fetch))
    ensures var verdict := Decide(lib, prev, trust, req.sub, fetch);
            var refusal := FirstRefusal(w.db, req, verdict.state == Approved && TrustedNow(w.db, req.account), prev.version);
            var storable := IdUnused(w.db.releases, id) && SqlLength(req.key) > 0;
            var r := RecordTx(w.db, req, verdict, id, now).1;
            && (r.Ok? <==> refusal.None? && storable)
            && (refusal.Some? ==> r == Err(refusal.value))
            && (refusal.None? && !storable ==> r == Err(ConstraintViolated))
  {
    hide Reachable, WorldOk, DbOk, Decide, RecordTx, VerdictOk, ValidSubmission, FetchInRange, PrevHolds, SqlLength, InsertAdmitted;
    hide Retired, RecordRefusal, Narrow, FirstRefusal, TrustedNow, VersionUsed, LiveVersionIs, CanPublish, OneApproved, UniqueIds, UniqueVersions, HashRequest, PublishRow;
    ReachableOk(lib, w);
    CallIn(lib, w, c);
    DbIn(lib, w);
    UniqueVersionsOfDb(w.db);
    var verdict := Decide(lib, prev, trust, req.sub, fetch);
    var v := Narrow(verdict, TrustOf(w.db.trust, req.account));
    DecideIsOk(lib, prev, trust, req.sub, fetch);
    VerdictSays(lib, prev, trust, req.sub, fetch);
    NarrowIsOk(verdict, TrustOf(w.db.trust, req.account));
    RefusalSaid(w.db, req, verdict);
    if RecordRefusal(w.db, req, v).Some? {
      RefusalIsTheAnswer(w.db, req, verdict, id, now);
    } else {
      HashIsHex(lib, req);
      InsertFits(w.db, req, v, id, now);
      WritesFit(w.db, req, verdict, id, now);
    }
  }

  lemma RefusalIsTheAnswer(db: Db, req: Request, verdict: Verdict, id: string, now: int)
    requires var v := Narrow(verdict, TrustOf(db.trust, req.account)); RecordRefusal(db, req, v).Some?
    ensures RecordTx(db, req, verdict, id, now).1 == Err(RecordRefusal(db, req, Narrow(verdict, TrustOf(db.trust, req.account))).value)
  {
    hide RecordRefusal, Narrow;
  }

  lemma RefusalSaid(db: Db, req: Request, verdict: Verdict)
    requires OneApproved(db.releases)
    ensures RecordRefusal(db, req, Narrow(verdict, TrustOf(db.trust, req.account)))
         == FirstRefusal(db, req, verdict.state == Approved && TrustedNow(db, req.account), verdict.comparedAgainst)
  {
    hide LiveRow, RowWithVersion, OneApproved;
    var rs, plugin := db.releases, req.sub.plugin;
    assert RowWithVersion(rs, plugin, req.sub.version).Some? <==> VersionUsed(rs, plugin, req.sub.version);
    LiveVersionSaid(rs, plugin, verdict.comparedAgainst);
  }

  lemma LiveVersionSaid(rs: seq<Release>, plugin: string, version: string)
    requires OneApproved(rs)
    ensures LiveVersionIs(rs, plugin, version) <==> LiveRow(rs, plugin).Some? && rs[LiveRow(rs, plugin).value].version == version
  {
    hide LiveRow;
    if i :| 0 <= i < |rs| && rs[i].plugin == plugin && rs[i].state == Approved && rs[i].version == version {
      assert LiveRow(rs, plugin).Some?;
    }
  }

  /** What a commit writes: the retirements, the row, the key, and the log, and nothing in any other table. */
  lemma ACommitWrites(db: Db, req: Request, verdict: Verdict, id: string, now: int)
    requires RecordTx(db, req, verdict, id, now).1.Ok?
    ensures var (d, r) := RecordTx(db, req, verdict, id, now);
            var live := verdict.state == Approved && TrustedNow(db, req.account);
            && d == db.(releases := d.releases, keys := d.keys, audit := d.audit)
            && |d.releases| == |db.releases| + 1
            && (forall i :: 0 <= i < |db.releases| ==>
                  d.releases[i] == if db.releases[i].plugin == req.sub.plugin
                                      && (db.releases[i].state == Pending || (live && db.releases[i].state == Approved))
                                   then db.releases[i].(state := Superseded) else db.releases[i])
            && RowSays(d.releases[|db.releases|], req, verdict.fetch, id, now)
            && d.releases[|db.releases|].state == (if verdict.state == Approved && !live then Pending else verdict.state)
            && d.releases[|db.releases|].note == Some(if verdict.state == Approved && !live then TrustLowered else verdict.review)
            && d.keys == db.keys[(req.account, req.key) := KeyRow(req.hash, id)]
  {
    hide Waiting, LiveRow, RowSays, RecordRefusal, RecordedOutcome, RetireEntries, PublishEntry;
    CommittedMeans(db, req, verdict, id, now);
    RecordedSays(db, req, Narrow(verdict, TrustOf(db.trust, req.account)), id, now);
    RecordedRows(db, req, Narrow(verdict, TrustOf(db.trust, req.account)), id, now);
  }

  lemma RecordedRows(db: Db, req: Request, v: Verdict, id: string, now: int)
    ensures var ss := Recorded(db, req, v, id, now).releases;
            forall i :: 0 <= i < |db.releases| ==>
              ss[i] == if db.releases[i].plugin == req.sub.plugin
                          && (db.releases[i].state == Pending || (v.state == Approved && db.releases[i].state == Approved))
                       then db.releases[i].(state := Superseded) else db.releases[i]
  {
    hide Waiting, LiveRow;
  }

  /** The log row about a release retired while it waited. */
  ghost predicate RetirementSays(e: Entry, db: Db, req: Request, id: string) {
    && e.actor == ByAccount(req.account) && e.event.SupersedePendingEvent? && e.event.release == id
    && e.event.plugin == req.sub.plugin && e.event.supersededBy == req.sub.version
    && exists j :: 0 <= j < |db.releases| && db.releases[j].id == id && db.releases[j].plugin == req.sub.plugin
                   && db.releases[j].state == Pending && db.releases[j].version == e.event.version
  }

  /** What a commit answers: the row it wrote, and the ids of those it retired. */
  lemma ACommitSays(db: Db, req: Request, verdict: Verdict, id: string, now: int)
    requires RecordTx(db, req, verdict, id, now).1.Ok? && OneApproved(db.releases)
    ensures var (d, r) := RecordTx(db, req, verdict, id, now);
            && d.releases != []
            && var row, out, plugin := d.releases[|d.releases| - 1], r.value, req.sub.plugin;
            && out == Outcome(id, row.state, verdict.verified, row.sha256, row.bytes, row.note, false,
                              out.superseded, out.supersededPending, verdict.reasons)
            && (row.state != Approved ==> out.superseded == None)
            && (row.state == Approved ==>
                  forall j :: 0 <= j < |db.releases| && db.releases[j].plugin == plugin && db.releases[j].state == Approved ==>
                    out.superseded == Some(db.releases[j].id))
            && (forall x :: x in out.supersededPending <==>
                  exists j :: 0 <= j < |db.releases| && db.releases[j].plugin == plugin && db.releases[j].state == Pending && db.releases[j].id == x)
  {
    hide RowSays, RecordRefusal, LiveRow, OneApproved, Waiting;
    CommittedMeans(db, req, verdict, id, now);
    var v := Narrow(verdict, TrustOf(db.trust, req.account));
    RecordedSays(db, req, v, id, now);
    WaitingNamed(db.releases, req.sub.plugin);
    LiveNamed(db.releases, req.sub.plugin);
  }

  /** What it logs: a row for each release retired while it waited, then the publish itself. */
  lemma ACommitLogs(db: Db, req: Request, verdict: Verdict, id: string, now: int)
    requires RecordTx(db, req, verdict, id, now).1.Ok?
    ensures var (d, r) := RecordTx(db, req, verdict, id, now); CommitLogged(db, req, verdict.verified, verdict.reasons, d.audit, r.value)
  {
    hide RecordRefusal, CommitLogged, Recorded, RecordedOutcome;
    CommittedMeans(db, req, verdict, id, now);
    RecordedLogged(db, req, Narrow(verdict, TrustOf(db.trust, req.account)), id, now);
  }

  ghost predicate CommitLogged(db: Db, req: Request, verified: bool, reasons: seq<Reason>, after: seq<Entry>, out: Outcome) {
    var n, m := |db.audit|, |out.supersededPending|;
    && |after| == n + m + 1 && after[..n] == db.audit
    && (forall i :: 0 <= i < m ==> RetirementSays(after[n + i], db, req, out.supersededPending[i]))
    && after[n + m] == Entry(ByAccount(req.account),
                             PublishEvent(req.sub.plugin, out.release, req.sub.version, out.state, verified, reasons,
                                          out.superseded, out.supersededPending))
  }

  lemma RecordedLogged(db: Db, req: Request, v: Verdict, id: string, now: int)
    ensures CommitLogged(db, req, v.verified, v.reasons, Recorded(db, req, v, id, now).audit, RecordedOutcome(db, req, v, id))
  {
    hide LiveRow, Waiting, Retired, RetirementSays, PublishRow, SupersededBy;
    var ws := Waiting(db.releases, req.sub.plugin);
    forall i | 0 <= i < |ws|
      ensures RetirementSays(RetireEntries(req, ws)[i], db, req, Ids(ws)[i])
    {
      assert ws[i] in ws;
      RetirementOf(db, req, ws[i]);
    }
  }

  lemma RetirementOf(db: Db, req: Request, row: Release)
    requires row in db.releases && row.plugin == req.sub.plugin && row.state == Pending
    ensures RetirementSays(RetireEntry(req, row), db, req, row.id)
  {
  }

  lemma WaitingNamed(rs: seq<Release>, plugin: string)
    ensures forall x :: x in Ids(Waiting(rs, plugin)) <==>
              exists j :: 0 <= j < |rs| && rs[j].plugin == plugin && rs[j].state == Pending && rs[j].id == x
  {
    hide Waiting;
    var ws := Waiting(rs, plugin);
    forall x
      ensures x in Ids(ws) <==> exists j :: 0 <= j < |rs| && rs[j].plugin == plugin && rs[j].state == Pending && rs[j].id == x
    {
      if x in Ids(ws) {
        var i :| 0 <= i < |ws| && Ids(ws)[i] == x;
        assert ws[i] in ws;
      }
      if j :| 0 <= j < |rs| && rs[j].plugin == plugin && rs[j].state == Pending && rs[j].id == x {
        assert rs[j] in ws;
        var i :| 0 <= i < |ws| && ws[i] == rs[j];
        assert Ids(ws)[i] == x;
      }
    }
  }

  lemma LiveNamed(rs: seq<Release>, plugin: string)
    requires OneApproved(rs)
    ensures forall j :: 0 <= j < |rs| && rs[j].plugin == plugin && rs[j].state == Approved ==> LiveRow(rs, plugin) == Some(j)
  {
    hide LiveRow;
  }

  // ---- the whole call ----

  /** The refusals of a publish nobody interferes with, in the order they are made. It is never told that
      the live release changed, nor that it was raced. */
  lemma PublishAnswers(lib: Lib, db: Db, req: Request, fetch: Fetch, id: string, now: int)
    ensures var r := PublishAlone(lib, db, req, fetch, id, now).1;
            var unseen := req.key != "" && (req.account, req.key) !in db.keys;
            var granted := (req.sub.plugin, req.account) in db.grants;
            var github := req.account in db.accounts && db.accounts[req.account].canPublish;
            var used := VersionUsed(db.releases, req.sub.plugin, req.sub.version);
            var blocked := req.account in db.trust && db.trust[req.account] == Blocked;
            && (r == Err(NoIdempotencyKey) <==> req.key == "")
            && (r == Err(IdempotencyKeyReused) <==>
                  req.key != "" && (req.account, req.key) in db.keys && db.keys[(req.account, req.key)].requestHash != req.hash)
            && (r == Err(NotPublishable) <==> unseen && !granted)
            && (r == Err(GitHubIdentityRequired) <==> unseen && granted && !github)
            && (r == Err(VersionExists) <==> unseen && granted && github && used)
            && (r == Err(AccountBlocked) <==> unseen && granted && github && !used && blocked)
            && r != Err(LiveReleaseChanged) && !(r.Err? && r.error.Raced?)
  {
    hide Decide, RecordTx, LiveRow, RowWithVersion, OutcomeOf;
    assert RowWithVersion(db.releases, req.sub.plugin, req.sub.version).Some? <==> VersionUsed(db.releases, req.sub.plugin, req.sub.version);
    ReplayNeverRefuses(db.releases, if (req.account, req.key) in db.keys then db.keys[(req.account, req.key)].release else "");
    var prev, trust := PreviousOf(db.releases, req.sub.plugin), TrustOf(db.trust, req.account);
    FreshDecision(lib, db, req, prev, trust, fetch);
    NoneOfThose(db, req, Decide(lib, prev, trust, req.sub, fetch), id, now);
  }

  lemma ReplayNeverRefuses(rs: seq<Release>, id: string)
    ensures OutcomeOf(rs, id).Err? ==> OutcomeOf(rs, id).error == NoSuchRelease
  {
  }

  lemma FreshDecision(lib: Lib, db: Db, req: Request, prev: Previous, trust: Trust, fetch: Fetch)
    requires prev == PreviousOf(db.releases, req.sub.plugin)
    ensures var v := Decide(lib, prev, trust, req.sub, fetch);
            v.comparedAgainst == prev.version && (v.state == Approved ==> prev.live) && (v.state == Approved || v.state == Pending)
  {
    hide Compare, SizeChangedSharply, PreviousOf;
    ApprovedMeans(lib, prev, trust, req.sub, fetch);
    VerdictSays(lib, prev, trust, req.sub, fetch);
  }

  lemma NoneOfThose(db: Db, req: Request, verdict: Verdict, id: string, now: int)
    requires verdict.comparedAgainst == PreviousOf(db.releases, req.sub.plugin).version
    requires verdict.state == Approved ==> PreviousOf(db.releases, req.sub.plugin).live
    ensures SeenKey(db, req).None? && HoldsGrant(db, req.sub.plugin, req.account) && TrustOf(db.trust, req.account) != Blocked
            && RowWithVersion(db.releases, req.sub.plugin, req.sub.version).None? ==>
              var r := RecordTx(db, req, verdict, id, now).1;
              r.Ok? || r == Err(ConstraintViolated) || r == Err(ActorMismatch)
  {
    hide RowWithVersion, InsertAdmitted, KeyAdmitted, Waiting, Retired, Recorded, RecordedOutcome, LiveRow;
  }

  /** A repeated key whose request is unchanged is answered with the release as it is now. */
  lemma ReplaySays(lib: Lib, w: World, req: Request, fetch: Fetch, id: string, now: int)
    requires Reachable(lib, w) && req.key != "" && (req.account, req.key) in w.db.keys
    requires w.db.keys[(req.account, req.key)].requestHash == req.hash
    ensures var rs, (d, r) := w.db.releases, PublishAlone(lib, w.db, req, fetch, id, now);
            && d == w.db
            && exists k :: 0 <= k < |rs| && rs[k].id == w.db.keys[(req.account, req.key)].release
                 && r == Ok(Outcome(rs[k].id, rs[k].state, rs[k].verifiedAt.Some?, rs[k].sha256, rs[k].bytes, rs[k].note,
                                    true, None, [], []))
  {
    hide Reachable, WorldOk, DbOk, RowWithId, RecordTx, Decide;
    ReachableOk(lib, w);
    DbIn(lib, w);
    KeyHasRow(w.db, (req.account, req.key));
  }

  // ---- submissions ----

  /** A submission is accepted exactly when its trimmed fields are of the accepted shapes, and what comes
      out is those fields: nothing is taken from anywhere else, and only the digest is lower-cased. */
  lemma NewSubmissionSays(raw: RawSubmission)
    ensures var r := NewSubmission(raw);
            var plugin, version, url := TrimSpace(raw.pluginId), TrimSpace(raw.version), TrimSpace(raw.artifactUrl);
            var digest, sdk := FoldAscii(TrimSpace(raw.artifactSha256)), TrimSpace(raw.sdkSpecifier);
            var wanted := raw.minimumAppVersion.Some? && TrimSpace(raw.minimumAppVersion.value) != "";
            var named := IsPluginId(plugin) && CheckVersion(version);
            var located := named && ByteLen(url) <= 2048 && IsPublishableUrl(url);
            var hashed := located && IsDigestHex(digest);
            var specified := hashed && sdk != "" && ByteLen(sdk) <= 128 && IsPlainText(sdk);
            var minimum := specified && (wanted ==> CheckVersion(TrimSpace(raw.minimumAppVersion.value)));
            && (r.Ok? <==> minimum && ValidateReleaseNotes(raw.notes).Ok?)
            && (r == Err(InvalidPluginId) <==> !IsPluginId(plugin))
            && (r == Err(NoVersion) <==> IsPluginId(plugin) && !CheckVersion(version))
            && (r == Err(BadArtifactUrl) <==> named && !located)
            && (r == Err(InvalidDigest) <==> located && !hashed)
            && (r == Err(NoSdkSpecifier) <==> hashed && !specified)
            && (r == Err(BadMinimumAppVersion) <==> specified && !minimum)
            && (r.Ok? ==>
                  && r.value.plugin == plugin && r.value.version == version && r.value.url == url && r.value.submitted == digest
                  && r.value.sdk == sdk && ValidateReleaseNotes(raw.notes) == Ok(r.value.notes)
                  && r.value.minApp == (if wanted then Some(TrimSpace(raw.minimumAppVersion.value)) else None))
  {
    hide TrimSpace, IsPluginId, CheckVersion, IsPublishableUrl, IsDigestHex, IsPlainText, ByteLen, ValidateReleaseNotes, FoldAscii;
  }

  /** Margins of blanks and newlines around notes make no difference, and text that is accepted is refused
      for nothing but a control character or its length. */
  lemma NotesSay(before: string, s: string, after: string)
    requires '\r' !in s && s != "" && Trimmed(s, IsNotesMargin)
    requires forall i :: 0 <= i < |before| ==> before[i] == ' ' || before[i] == '\t' || before[i] == '\n'
    requires forall i :: 0 <= i < |after| ==> after[i] == ' ' || after[i] == '\t' || after[i] == '\n'
    ensures ValidateReleaseNotes(before + s + after)
         == if exists i :: 0 <= i < |s| && IsControl(s[i]) && s[i] != '\n' && s[i] != '\t' then Err(NotesControlCharacter)
            else if ByteLen(s) > 2048 then Err(NotesTooLong)
            else Ok(s)
  {
    hide ByteLen, IsControl, Trim;
    WithoutCrUnchanged(before + s + after);
    TrimStripsMargins(before, s, after, IsNotesMargin);
  }

  // ---- the directory ----

  /** The index lists exactly the approved releases of plugins that are not delisted, each with its plugin's
      metadata and its own columns. */
  lemma ListingsSay(db: Db, l: Listing)
    requires ListingsOf(db).Some?
    ensures l in ListingsOf(db).value
       <==> exists i :: 0 <= i < |db.releases| && db.releases[i].state == Approved
              && db.releases[i].plugin in db.plugins && db.plugins[db.releases[i].plugin].delistedAt.None?
              && ListingOf(db.plugins[db.releases[i].plugin], db.releases[i]) == Some(l)
  {
    hide ListListings, ListingOf, ListingFrom, RowOf;
    var rows, ls := ListListings(db.plugins, db.releases), ListingsOf(db).value;
    RowsComeFromReleases(db.plugins, db.releases);
    if l in ls {
      var i :| 0 <= i < |ls| && ls[i] == l;
      assert rows[i] in rows;
      var k :| 0 <= k < |db.releases| && Joined(db.plugins, db.releases[k]) && rows[i] == RowOf(db.plugins[db.releases[k].plugin], db.releases[k]);
      ListingIs(db.plugins[db.releases[k].plugin], db.releases[k]);
    }
    if i :| 0 <= i < |db.releases| && db.releases[i].state == Approved
            && db.releases[i].plugin in db.plugins && db.plugins[db.releases[i].plugin].delistedAt.None?
            && ListingOf(db.plugins[db.releases[i].plugin], db.releases[i]) == Some(l) {
      ReleasesHaveRows(db.plugins, db.releases, i);
      ListingIs(db.plugins[db.releases[i].plugin], db.releases[i]);
      var row := RowOf(db.plugins[db.releases[i].plugin], db.releases[i]);
      var k :| 0 <= k < |rows| && rows[k] == row;
      assert ls[k] == l;
    }
  }

  /** A listing, column by column. */
  function ListingOf(p: Plugin, r: Release): Option<Listing> {
    if r.sha256.None? || r.sha256.value == "" then None
    else Some(Listing(r.plugin, p.name, p.description, p.author, p.homepage, r.version, r.url, r.sha256.value, r.sdk, r.minApp,
                      match r.notes case None => "" case Some(text) => text))
  }

  lemma ListingIs(p: Plugin, r: Release)
    ensures ListingFrom(RowOf(p, r)) == ListingOf(p, r)
  {
  }

  /** The three counts, each by itself. */
  lemma CountsSay(lib: Lib, w: World, query: string)
    requires Reachable(lib, w) && BrowseOf(w.db, query).Some?
    ensures var b, rs, plugins := BrowseOf(w.db, query).value, w.db.releases, w.db.plugins;
            && b.awaiting == |(set p | p in plugins && plugins[p].delistedAt.None? && forall i :: 0 <= i < |rs| ==> !(rs[i].plugin == p && rs[i].state == Approved))|
            && b.delisted == |(set p | p in plugins && plugins[p].delistedAt.Some?)|
            && b.listed == |(set p | p in plugins && plugins[p].delistedAt.None? && exists i :: 0 <= i < |rs| && rs[i].plugin == p && rs[i].state == Approved)|
  {
    hide Reachable, UniqueIds, OneApproved, LiveRow, Rendered, Matching, ListListings, FoldAscii;
    ReachableIsTidy(lib, w);
    var rs, plugins := w.db.releases, w.db.plugins;
    ListedCountIsIds(plugins, rs);
    assert AwaitingIds(plugins, rs)
        == set p | p in plugins && plugins[p].delistedAt.None? && forall i :: 0 <= i < |rs| ==> !(rs[i].plugin == p && rs[i].state == Approved);
    assert ListedIds(plugins, rs)
        == set p | p in plugins && plugins[p].delistedAt.None? && exists i :: 0 <= i < |rs| && rs[i].plugin == p && rs[i].state == Approved;
    assert DelistedIds(plugins) == set p | p in plugins && plugins[p].delistedAt.Some?;
  }

  /** `needle` stands somewhere in `hay`, ASCII case aside. */
  ghost predicate FoundIn(hay: string, needle: string) {
    exists i :: 0 <= i <= |hay| - |needle| && SameFolded(hay, i, needle)
  }

  predicate SameFolded(hay: string, at: nat, needle: string)
    requires at + |needle| <= |hay|
  {
    forall k :: 0 <= k < |needle| ==> LowerAscii(hay[at + k]) == LowerAscii(needle[k])
  }

  lemma ContainsSays(hay: string, needle: string)
    ensures Contains(FoldAscii(hay), FoldAscii(needle)) <==> FoundIn(hay, needle)
  {
    var h, n := FoldAscii(hay), FoldAscii(needle);
    if i :| 0 <= i <= |h| && n <= h[i..] {
      assert forall k :: 0 <= k < |n| ==> h[i..][k] == n[k];
      assert SameFolded(hay, i, needle);
    }
    if i :| 0 <= i <= |hay| - |needle| && SameFolded(hay, i, needle) {
      assert h[i..][..|n|] == n;
    }
  }

  /** A listing of the index is on the page exactly when its id, name, description or author holds the
      query. */
  lemma QueryFinds(db: Db, query: string, l: Listing)
    requires ListingsOf(db).Some? && BrowseOf(db, query).Some? && l in ListingsOf(db).value
    ensures l in BrowseOf(db, query).value.plugins
       <==> FoundIn(l.id, query) || FoundIn(l.name, query) || FoundIn(l.description, query) || FoundIn(l.author, query)
  {
    hide ListListings, Contains, FoundIn, FoldAscii, Matching;
    var rows := ListListings(db.plugins, db.releases);
    var found := Matching(rows, FoldAscii(query));
    MatchingIsSubList(rows, FoldAscii(query));
    ContainsSays(l.id, query);
    ContainsSays(l.name, query);
    ContainsSays(l.description, query);
    ContainsSays(l.author, query);
    var i :| 0 <= i < |ListingsOf(db).value| && ListingsOf(db).value[i] == l;
    assert ListingFrom(rows[i]) == Some(l);
    var page := BrowseOf(db, query).value.plugins;
    if l in page {
      var j :| 0 <= j < |page| && page[j] == l;
      assert ListingFrom(found[j]) == Some(l) && found[j] in found;
    }
    if Matches(rows[i], FoldAscii(query)) {
      assert rows[i] in found;
      var j :| 0 <= j < |found| && found[j] == rows[i];
      assert page[j] == l;
    }
  }

  // ---- the seed ----

  /** When an import writes nothing and why. */
  lemma ImportAnswers(db: Db, seed: seq<Listing>, ids: seq<string>, now: int)
    requires |ids| == |seed|
    ensures var (d, r) := ImportTx(db, seed, ids, now);
            var before := exists i :: 0 <= i < |db.audit| && db.audit[i].event.CatalogueImportEvent?;
            && (r == Err(InvalidSeed) <==> NewIndexOf(seed).None?)
            && (NewIndexOf(seed).Some? && |db.plugins| > 0 ==> d == db && r == Ok(ImportOutcome(0, Some(CatalogueExists), |db.plugins|)))
            && (NewIndexOf(seed).Some? && |db.plugins| == 0 && before ==> d == db && r == Ok(ImportOutcome(0, Some(AlreadyImported), 0)))
            && (|db.plugins| == 0 && !before && seed == [] ==> d == db && r == Ok(ImportOutcome(0, Some(SeedEmpty), 0)))
            && (r.Ok? && r.value.skip.None? ==>
                  && |db.plugins| == 0 && !before && seed != [] && r == Ok(ImportOutcome(|seed|, None, 0))
                  && d.audit == db.audit + [Entry(BySystem, CatalogueImportEvent(|seed|))])
            && (r.Err? ==> d == db)
  {
    hide AllRender, DistinctIds, InsertImported, Ordered;
    ImportsCounted(db.audit);
    if NewIndexOf(seed).Some? {
      IndexKeepsSize(seed);
      if |NewIndexOf(seed).value| > 0 {
        ImportNeverInvalid(db, NewIndexOf(seed).value, ids, now);
      }
    } else {
      assert seed != [] by {
        NothingIsValid();
      }
    }
  }

  lemma NothingIsValid()
    ensures NewIndexOf([]) == Some([])
  {
  }

  lemma {:induction false} ImportsCounted(audit: seq<Entry>)
    ensures ImportCount(audit) > 0 <==> exists i :: 0 <= i < |audit| && audit[i].event.CatalogueImportEvent?
  {
    if audit != [] {
      var init := audit[..|audit| - 1];
      ImportsCounted(init);
      assert forall i :: 0 <= i < |init| ==> audit[i] == init[i];
      if i :| 0 <= i < |audit| && audit[i].event.CatalogueImportEvent? {
        assert i < |init| ==> init[i].event.CatalogueImportEvent?;
      }
    }
  }

  lemma {:induction false} ImportNeverInvalid(db: Db, ls: seq<Listing>, ids: seq<string>, now: int)
    requires |ids| == |ls|
    ensures var r := ImportAll(db, ls, ids, now);
            (r.Err? ==> r.error != InvalidSeed) && (r.Ok? ==> r.value == db.(plugins := r.value.plugins, releases := r.value.releases))
  {
    if ls != [] {
      ImportNeverInvalid(db, ls[..|ls| - 1], ids[..|ls| - 1], now);
    }
  }
}
