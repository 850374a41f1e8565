/** What holds of every reachable state and of every run, whatever the interleaving. */
module Safety {
  import opened Basics
  import opened Notes
  import opened Submissions
  import opened Versions
  import opened Tables
  import opened Publishing
  import opened Reviewing
  import opened Ownership
  import opened Catalogue
  import opened Invariants
  import opened AuditTrail
  import opened Commits
  import opened Protocol

  // ---- a stale decision to publish is as good as a fresh one ----

  /** The live row whose version the comparison was made against is the row it was made against:
      versions are unique per plugin and the row has been frozen since it left pending. */
  lemma PrevIsLive(rs: seq<Release>, plugin: string, prev: Previous, k: nat)
    requires UniqueVersions(rs) && PrevHolds(rs, plugin, prev) && prev.live
    requires LiveRow(rs, plugin) == Some(k) && rs[k].version == prev.version
    ensures PreviousOf(rs, plugin) == prev
  {
    var i :| 0 <= i < |rs| && PrevIs(rs[i], plugin, prev);
    assert i == k;
  }

  /** Linearisation: a publish that commits an approved release, after reads and a fetch that ran
      while anybody else's transactions committed, did exactly what it would have done had the whole
      call run at the moment of the commit with nothing in between. */
  lemma PublishLinearises(lib: Lib, w: World, c: nat, req: Request, trust: Trust, prev: Previous, fetch: Fetch,
                          id: string, now: int)
    requires Reachable(lib, w) && c in w.calls && w.calls[c] == PublishCall(req, Recording(trust, prev, fetch))
    requires var r := RecordTx(w.db, req, Decide(lib, prev, trust, req.sub, fetch), id, now).1;
             r.Ok? && r.value.state == Approved
    ensures PublishAlone(lib, w.db, req, fetch, id, now)
         == RecordTx(w.db, req, Decide(lib, prev, trust, req.sub, fetch), id, now)
    ensures Decide(lib, PreviousOf(w.db.releases, req.sub.plugin), TrustOf(w.db.trust, req.account), req.sub, fetch)
         == Decide(lib, prev, trust, req.sub, fetch)
    ensures HoldsGrant(w.db, req.sub.plugin, req.account) && TrustOf(w.db.trust, req.account) == Trusted
  {
    hide WorldOk, RecordTx, Decide, ValidSubmission, PrevHolds, FetchInRange, Recorded, DbOk, PublishAlone, Reachable;
    hide SeenKey, LiveRow, RowWithVersion, RecordRefusal, PreviousOf, CanPublish, UniqueVersions, OneApproved, UniqueIds;
    hide Compare, HashRequest, HoldsGrant, TrustOf, Waiting;
    ReachableOk(lib, w);
    CallIn(lib, w, c);
    DbIn(lib, w);
    UniqueVersionsOfDb(w.db);
    var v := Decide(lib, prev, trust, req.sub, fetch);
    CommittedMeans(w.db, req, v, id, now);
    CommittedApproved(lib, w.db, req, trust, prev, fetch, id, now);
    PrevIsLive(w.db.releases, req.sub.plugin, prev, LiveRow(w.db.releases, req.sub.plugin).value);
    AloneGetsThere(lib, w.db, req, fetch, id, now, v);
  }

  lemma UniqueVersionsOfDb(db: Db)
    requires DbOk(db)
    ensures UniqueVersions(db.releases) && OneApproved(db.releases) && UniqueIds(db.releases)
  {
    hide LogOk, KeysPoint, RowsKeyed;
  }

  /** What a committed automatic publish found in the database. */
  lemma CommittedApproved(lib: Lib, db: Db, req: Request, trust: Trust, prev: Previous, fetch: Fetch, id: string, now: int)
    requires var v := Narrow(Decide(lib, prev, trust, req.sub, fetch), TrustOf(db.trust, req.account));
             v.state == Approved && RecordRefusal(db, req, v).None?
    ensures trust == Trusted && TrustOf(db.trust, req.account) == Trusted && prev.live
    ensures HoldsGrant(db, req.sub.plugin, req.account) && SeenKey(db, req).None?
    ensures RowWithVersion(db.releases, req.sub.plugin, req.sub.version).None?
    ensures LiveRow(db.releases, req.sub.plugin).Some?
    ensures db.releases[LiveRow(db.releases, req.sub.plugin).value].version == prev.version
    ensures Compare(prev.version, req.sub.version) == Higher
  {
    hide Reasons, Compare, RowWithVersion, LiveRow, Verified, SizeChangedSharply;
    ApprovedMeans(lib, prev, trust, req.sub, fetch);
  }

  lemma AloneGetsThere(lib: Lib, db: Db, req: Request, fetch: Fetch, id: string, now: int, v: Verdict)
    requires req.key != "" && SeenKey(db, req).None? && HoldsGrant(db, req.sub.plugin, req.account)
    requires CanPublish(db, req.account) && TrustOf(db.trust, req.account) != Blocked
    requires RowWithVersion(db.releases, req.sub.plugin, req.sub.version).None?
    requires v == Decide(lib, PreviousOf(db.releases, req.sub.plugin), TrustOf(db.trust, req.account), req.sub, fetch)
    ensures PublishAlone(lib, db, req, fetch, id, now) == RecordTx(db, req, v, id, now)
  {
    hide Decide, RecordTx, RowWithVersion, PreviousOf, TrustOf;
  }

  /** An automatic publish is never stopped because the plugin has no live release any more: only
      because it has a different one. */
  lemma LiveIsNeverGone(lib: Lib, w: World, c: nat, req: Request, trust: Trust, prev: Previous, fetch: Fetch)
    requires Reachable(lib, w) && c in w.calls && w.calls[c] == PublishCall(req, Recording(trust, prev, fetch))
    requires Decide(lib, prev, trust, req.sub, fetch).state == Approved
    ensures LiveRow(w.db.releases, req.sub.plugin).Some?
  {
    hide WorldOk, DbOk, ValidSubmission, FetchInRange, Decide, Compare, Verified, SizeChangedSharply;
    hide LiveKept, AutoRooted, PendingNewest, PrevHolds, LiveRow, Reachable, CanPublish, HashRequest;
    ReachableOk(lib, w);
    CallIn(lib, w, c);
    DbIn(lib, w);
    LiveKeptOfDb(w.db);
    ApprovedMeans(lib, prev, trust, req.sub, fetch);
    OnceLiveIsLive(w.db.releases, req.sub.plugin, prev);
  }

  lemma OnceLiveIsLive(rs: seq<Release>, plugin: string, prev: Previous)
    requires LiveKept(rs) && PrevHolds(rs, plugin, prev) && prev.live
    ensures LiveRow(rs, plugin).Some?
  {
    var i :| 0 <= i < |rs| && PrevIs(rs[i], plugin, prev);
    assert HasLive(rs, plugin);
  }

  lemma LiveKeptOfDb(db: Db)
    requires DbOk(db)
    ensures LiveKept(db.releases) && AutoRooted(db.releases) && PendingNewest(db.releases)
  {
    hide LogOk, KeysPoint, RowsKeyed;
  }

  // ---- a listing never goes back ----

  /** Over any run a plugin that is live stays live, and its live release is only ever replaced by
      one that was submitted later. */
  lemma ListingNeverRollsBack(lib: Lib, w: World, ls: seq<Label>, plugin: string)
    requires Reachable(lib, w) && LiveRow(w.db.releases, plugin).Some?
    ensures var later := LiveRow(Run(lib, w, ls).db.releases, plugin);
            later.Some? && LiveRow(w.db.releases, plugin).value <= later.value
  {
    hide WorldOk, DbOk, RowsEvolve, Run;
    ReachableOk(lib, w);
    RunKeeps(lib, w, ls);
    var rs, ss := w.db.releases, Run(lib, w, ls).db.releases;
    var i := LiveRow(rs, plugin).value;
    var j :| i <= j < |ss| && ss[j].plugin == rs[i].plugin && ss[j].state == Approved;
    DbIn(lib, Run(lib, w, ls));
    UniqueVersionsOfDb(Run(lib, w, ls).db);
    LiveIs(ss, plugin, j);
  }

  /** The queue's "first release" mark, ApprovedReleases == 0. */
  predicate FirstReleaseMark(db: Db, plugin: string) {
    LiveRow(db.releases, plugin).None?
  }

  /** The mark means what a reviewer takes it to mean: never approved in the whole history. */
  lemma FirstReleaseMeansNeverApproved(lib: Lib, ls: seq<Label>, plugin: string)
    ensures FirstReleaseMark(Run(lib, START, ls).db, plugin)
       <==> forall k :: 0 <= k <= |ls| ==> LiveRow(Run(lib, START, ls[..k]).db.releases, plugin).None?
  {
    hide LiveRow, Next;
    assert ls[..|ls|] == ls;
    forall k | 0 <= k <= |ls| && LiveRow(Run(lib, START, ls[..k]).db.releases, plugin).Some?
      ensures LiveRow(Run(lib, START, ls).db.releases, plugin).Some?
    {
      RunSplits(lib, START, ls[..k], ls[k..]);
      assert ls[..k] + ls[k..] == ls;
      assert Reachable(lib, Run(lib, START, ls[..k]));
      ListingNeverRollsBack(lib, Run(lib, START, ls[..k]), ls[k..], plugin);
    }
  }

  lemma {:induction false} RunSplits(lib: Lib, w: World, a: seq<Label>, b: seq<Label>)
    ensures Run(lib, w, a + b) == Run(lib, Run(lib, w, a), b)
  {
    hide Next;
    if b == [] {
      assert a + b == a;
    } else {
      RunSplits(lib, w, a, b[..|b| - 1]);
      assert (a + b)[..|a + b| - 1] == a + b[..|b| - 1];
    }
  }

  // ---- the log is the state ----

  function StateOf(rs: seq<Release>, id: string): Option<ReleaseState> {
    match RowWithId(rs, id)
    case None => None
    case Some(k) => Some(rs[k].state)
  }

  /** What the catalogue import started release `id` in. */
  function StartOf(rs: seq<Release>, id: string): Option<ReleaseState> {
    match RowWithId(rs, id)
    case None => None
    case Some(k) => Start(rs[k])
  }

  /** In every reachable state, folding the audit log over the imported releases gives exactly the
      state of every release, and nothing for an id that names none. */
  lemma LogDeterminesState(lib: Lib, w: World, id: string)
    requires Reachable(lib, w)
    ensures ReplayLog(w.db.audit, id, StartOf(w.db.releases, id)) == StateOf(w.db.releases, id)
  {
    hide WorldOk, TableOk, KeysPoint, RowsKeyed, KeysInjective, ReplayLog;
    ReachableOk(lib, w);
    DbIn(lib, w);
    if RowWithId(w.db.releases, id).None? {
      assert NoRow(w.db.releases, id);
    }
  }

  // ---- exactly once ----

  /** Two successful answers for one key name one release, answered one request hash, and, as far as
      SHA-256 tells their texts apart, one submission. */
  lemma OneKeyOneRelease(lib: Lib, w: World, i: nat, j: nat)
    requires Reachable(lib, w) && i < |w.replies| && j < |w.replies|
    requires w.replies[i].req.account == w.replies[j].req.account && w.replies[i].req.key == w.replies[j].req.key
    ensures w.replies[i].outcome.release == w.replies[j].outcome.release
    ensures w.replies[i].req.hash == w.replies[j].req.hash
    ensures var p, q := RequestPreimage(w.replies[i].req.sub), RequestPreimage(w.replies[j].req.sub);
            (lib.sha256(p) == lib.sha256(q) ==> p == q) ==> w.replies[i].req.sub == w.replies[j].req.sub
  {
    hide DbOk, CallsOk, ValidSubmission, RequestPreimage;
    ReachableOk(lib, w);
    var a, b := w.replies[i], w.replies[j];
    assert ReplyOk(lib, w.db, a) && ReplyOk(lib, w.db, b);
    PreimageInjective(a.req.sub, b.req.sub);
  }

  /** A key stands for one release row and a published release row for one key: neither exists
      without the other, and no key inserted two releases. */
  lemma KeysAndReleasesPair(lib: Lib, w: World)
    requires Reachable(lib, w)
    ensures forall k :: k in w.db.keys ==> exists i: nat :: KeyPoints(w.db.keys, w.db.releases, k, i)
    ensures forall i :: 0 <= i < |w.db.releases| && w.db.releases[i].source == Published ==>
              exists k :: KeyPoints(w.db.keys, w.db.releases, k, i)
    ensures forall k, i: nat, j: nat {:trigger KeyPoints(w.db.keys, w.db.releases, k, i), KeyPoints(w.db.keys, w.db.releases, k, j)} ::
              KeyPoints(w.db.keys, w.db.releases, k, i) && KeyPoints(w.db.keys, w.db.releases, k, j) ==> i == j
    ensures forall k, l, i: nat {:trigger KeyPoints(w.db.keys, w.db.releases, k, i), KeyPoints(w.db.keys, w.db.releases, l, i)} ::
              KeyPoints(w.db.keys, w.db.releases, k, i) && KeyPoints(w.db.keys, w.db.releases, l, i) ==> k == l
  {
    hide WorldOk, LogOk, UniqueVersions, PendingNewest, LiveKept, AutoRooted, OneApproved, StatesOk, TextsOk;
    ReachableOk(lib, w);
    DbIn(lib, w);
  }

  /** Every successful answer names a release that is in the table, now and after any further run. */
  lemma AnswersStand(lib: Lib, w: World, ls: seq<Label>, i: nat)
    requires Reachable(lib, w) && i < |w.replies|
    ensures var r := w.replies[i]; KeyAnswers(Run(lib, w, ls).db, r.req, r.outcome.release)
    ensures RowWithId(Run(lib, w, ls).db.releases, w.replies[i].outcome.release).Some?
  {
    hide WorldOk, DbEvolves, Run, RequestOk, RowWithId;
    ReachableOk(lib, w);
    RunKeeps(lib, w, ls);
    ReplyIn(lib, w, i);
    var d := Run(lib, w, ls).db;
    AnswerStays(w.db, d, w.replies[i].req, w.replies[i].outcome.release);
    DbIn(lib, Run(lib, w, ls));
    KeyHasRow(d, (w.replies[i].req.account, w.replies[i].req.key));
  }

  lemma ReplyIn(lib: Lib, w: World, i: nat)
    requires WorldOk(lib, w) && i < |w.replies|
    ensures KeyAnswers(w.db, w.replies[i].req, w.replies[i].outcome.release)
  {
    hide DbOk, CallsOk, RequestOk;
    assert ReplyOk(lib, w.db, w.replies[i]);
  }

  lemma KeyHasRow(db: Db, k: (string, string))
    requires DbOk(db) && k in db.keys
    ensures RowWithId(db.releases, db.keys[k].release).Some?
  {
    hide TableOk, LogOk, RowsKeyed, KeysInjective, ForeignKeysOk, PluginsOk, GrantsOk;
    var i: nat :| KeyPoints(db.keys, db.releases, k, i);
  }

  // ---- the schema's constraints never fire ----

  /** In a reachable state the recording transaction violates a constraint exactly when nothing else
      refuses it and the id it was given is already a release's, or the key is one SQL takes for empty. */
  lemma OnlyIdCollisionsAreRefused(lib: Lib, w: World, c: nat, req: Request, trust: Trust, prev: Previous, fetch: Fetch,
                                   id: string, now: int)
    requires Reachable(lib, w) && c in w.calls && w.calls[c] == PublishCall(req, Recording(trust, prev, fetch))
    ensures var verdict := Decide(lib, prev, trust, req.sub, fetch);
            var v := Narrow(verdict, TrustOf(w.db.trust, req.account));
            && (RecordTx(w.db, req, verdict, id, now).1 == Err(ConstraintViolated)
                <==> RecordRefusal(w.db, req, v).None? && (!NoRow(w.db.releases, id) || SqlLength(req.key) == 0))
  {
    hide WorldOk, Decide, ValidSubmission, FetchInRange, DbOk, VerdictOk, NoRow, RecordRefusal, Retired, PrevHolds, Waiting;
    hide InsertAdmitted, KeyAdmitted, CanPublish, Recorded, RecordedOutcome, RecordTx, SqlLength, Reachable;
    ReachableOk(lib, w);
    CallIn(lib, w, c);
    DbIn(lib, w);
    var verdict := Decide(lib, prev, trust, req.sub, fetch);
    var v := Narrow(verdict, TrustOf(w.db.trust, req.account));
    DecideIsOk(lib, prev, trust, req.sub, fetch);
    NarrowIsOk(verdict, TrustOf(w.db.trust, req.account));
    if RecordRefusal(w.db, req, v).Some? {
      RefusedFirst(w.db, req, verdict, id, now);
    } else {
      HashIsHex(lib, req);
      InsertFits(w.db, req, v, id, now);
      WritesFit(w.db, req, verdict, id, now);
    }
  }

  lemma HashIsHex(lib: Lib, req: Request)
    requires RequestOk(lib, req)
    ensures IsDigestHex(req.hash)
  {
    hide ValidSubmission, RequestPreimage;
  }

  lemma RefusedFirst(db: Db, req: Request, verdict: Verdict, id: string, now: int)
    requires RecordRefusal(db, req, Narrow(verdict, TrustOf(db.trust, req.account))).Some?
    ensures RecordTx(db, req, verdict, id, now).1 != Err(ConstraintViolated)
  {
    hide RecordRefusal;
    RefusalIsNoConstraint(db, req, Narrow(verdict, TrustOf(db.trust, req.account)));
  }

  /** Past the checks, the transaction fails exactly where an insert does, and succeeds otherwise. */
  lemma WritesFit(db: Db, req: Request, verdict: Verdict, id: string, now: int)
    requires var v := Narrow(verdict, TrustOf(db.trust, req.account));
             && RecordRefusal(db, req, v).None? && req.account in db.accounts && req.account != "" && IsDigestHex(req.hash)
             && (InsertAdmitted(db.accounts, db.plugins, Retired(db.releases, req.sub.plugin, v), PublishRow(req, v, id, now))
                 <==> NoRow(db.releases, id))
    ensures var r := RecordTx(db, req, verdict, id, now).1;
            if NoRow(db.releases, id) && SqlLength(req.key) > 0 then r.Ok? && r.value.state == Narrow(verdict, TrustOf(db.trust, req.account)).state
            else r == Err(ConstraintViolated)
  {
    hide RecordRefusal, InsertAdmitted, Retired, Waiting, Recorded, SqlLength, NoRow, IsDigestHex, TrustOf, Narrow;
    var v := Narrow(verdict, TrustOf(db.trust, req.account));
    JustInserted(Retired(db.releases, req.sub.plugin, v), PublishRow(req, v, id, now));
  }

  lemma JustInserted(rs: seq<Release>, row: Release)
    ensures RowWithId(rs + [row], row.id).Some?
  {
    assert (rs + [row])[|rs|] == row;
  }

  lemma RefusalIsNoConstraint(db: Db, req: Request, v: Verdict)
    ensures RecordRefusal(db, req, v) != Some(ConstraintViolated)
  {
  }

  lemma InsertFits(db: Db, req: Request, v: Verdict, id: string, now: int)
    requires DbOk(db) && ValidSubmission(req.sub) && VerdictOk(v) && RecordRefusal(db, req, v).None?
    ensures InsertAdmitted(db.accounts, db.plugins, Retired(db.releases, req.sub.plugin, v), PublishRow(req, v, id, now))
       <==> NoRow(db.releases, id)
    ensures req.account in db.accounts && req.account != ""
  {
    hide DbOk, ValidSubmission, VerdictOk, RecordRefusal, RowChecks, RowWithVersion, LiveRow, PendingRow, RowWithId, NoRow, Retired;
    PublishRowChecks(req, v, id, now);
    SubmitterFits(db, req, v);
    IndexesFit(db.releases, req, v, id, now);
    FirstFree(db, req, v);
  }

  /** The foreign keys of the row: the plugin has a grant for the account, so both are there. */
  lemma SubmitterFits(db: Db, req: Request, v: Verdict)
    requires DbOk(db) && RecordRefusal(db, req, v).None?
    ensures req.sub.plugin in db.plugins && req.account in db.accounts && req.account != ""
  {
    hide TableOk, ForeignKeysOk, PluginsOk, KeysPoint, RowsKeyed, KeysInjective, LogOk, RowWithVersion, LiveRow, SeenKey;
    assert (req.sub.plugin, req.account) in db.grants;
  }

  lemma FirstFree(db: Db, req: Request, v: Verdict)
    requires RecordRefusal(db, req, v).None?
    ensures RowWithVersion(db.releases, req.sub.plugin, req.sub.version).None?
  {
    hide RowWithVersion, LiveRow, SeenKey;
  }

  /** The primary key and the unique indexes. */
  lemma IndexesFit(rs: seq<Release>, req: Request, v: Verdict, id: string, now: int)
    ensures var ss, row := Retired(rs, req.sub.plugin, v), PublishRow(req, v, id, now);
            && (RowWithId(ss, row.id).None? <==> NoRow(rs, id))
            && (row.state == Approved ==> LiveRow(ss, row.plugin).None?) && PendingRow(ss, row.plugin).None?
            && (RowWithVersion(rs, row.plugin, row.version).None? ==> RowWithVersion(ss, row.plugin, row.version).None?)
  {
    hide Retired;
    RetiredIds(rs, req.sub.plugin, v, id);
    RetiredLeavesRoom(rs, req.sub.plugin, v);
  }

  /** A publish that has fetched its artifact goes live at its commit exactly when the decision it
      made on what it read is still the decision to make: the comparison still stands, the submitter is
      still trusted and still holds the plugin, and neither key nor version nor id has been used. (A key
      that starts with NUL is empty to SQL, and never used.) */
  lemma GoesLiveExactlyWhen(lib: Lib, w: World, c: nat, req: Request, trust: Trust, prev: Previous, fetch: Fetch,
                            id: string, now: int)
    requires Reachable(lib, w) && c in w.calls && w.calls[c] == PublishCall(req, Recording(trust, prev, fetch))
    ensures var r := RecordTx(w.db, req, Decide(lib, prev, trust, req.sub, fetch), id, now).1;
            (r.Ok? && r.value.state == Approved)
            <==> && Decide(lib, prev, trust, req.sub, fetch).state == Approved
                 && PreviousOf(w.db.releases, req.sub.plugin) == prev
                 && TrustOf(w.db.trust, req.account) == Trusted && HoldsGrant(w.db, req.sub.plugin, req.account)
                 && SeenKey(w.db, req).None? && RowWithVersion(w.db.releases, req.sub.plugin, req.sub.version).None?
                 && NoRow(w.db.releases, id) && SqlLength(req.key) > 0
  {
    hide WorldOk, RecordTx, Decide, ValidSubmission, PrevHolds, FetchInRange, Recorded, DbOk, Reachable, NoRow, VerdictOk;
    hide SeenKey, LiveRow, RowWithVersion, RecordRefusal, PreviousOf, CanPublish, UniqueVersions, OneApproved, UniqueIds;
    hide Compare, HashRequest, HoldsGrant, TrustOf, Waiting, InsertAdmitted, SqlLength;
    ReachableOk(lib, w);
    CallIn(lib, w, c);
    DbIn(lib, w);
    UniqueVersionsOfDb(w.db);
    var v := Decide(lib, prev, trust, req.sub, fetch);
    DecideIsOk(lib, prev, trust, req.sub, fetch);
    var r := RecordTx(w.db, req, v, id, now).1;
    if r.Ok? && r.value.state == Approved {
      CommittedMeans(w.db, req, v, id, now);
      NarrowedApproved(v, TrustOf(w.db.trust, req.account));
      CommittedApproved(lib, w.db, req, trust, prev, fetch, id, now);
      PrevIsLive(w.db.releases, req.sub.plugin, prev, LiveRow(w.db.releases, req.sub.plugin).value);
    }
    if && v.state == Approved && PreviousOf(w.db.releases, req.sub.plugin) == prev
       && TrustOf(w.db.trust, req.account) == Trusted && HoldsGrant(w.db, req.sub.plugin, req.account)
       && SeenKey(w.db, req).None? && RowWithVersion(w.db.releases, req.sub.plugin, req.sub.version).None?
       && NoRow(w.db.releases, id) && SqlLength(req.key) > 0 {
      StillFits(lib, w.db, req, trust, prev, fetch);
      HashIsHex(lib, req);
      InsertFits(w.db, req, v, id, now);
      WritesFit(w.db, req, v, id, now);
    }
  }

  lemma StillFits(lib: Lib, db: Db, req: Request, trust: Trust, prev: Previous, fetch: Fetch)
    requires var v := Decide(lib, prev, trust, req.sub, fetch); v.state == Approved
    requires PreviousOf(db.releases, req.sub.plugin) == prev
    requires TrustOf(db.trust, req.account) == Trusted && HoldsGrant(db, req.sub.plugin, req.account)
    requires SeenKey(db, req).None? && RowWithVersion(db.releases, req.sub.plugin, req.sub.version).None?
    ensures RecordRefusal(db, req, Decide(lib, prev, trust, req.sub, fetch)).None?
  {
    hide Reasons, Compare, RowWithVersion, LiveRow, Verified, SizeChangedSharply;
    ApprovedMeans(lib, prev, trust, req.sub, fetch);
  }

  lemma PublishRowChecks(req: Request, v: Verdict, id: string, now: int)
    requires ValidSubmission(req.sub) && VerdictOk(v)
    ensures RowChecks(PublishRow(req, v, id, now))
  {
    SubmittedTextOk(req.sub, v.fetch);
  }

  /** After the retirements no index stands in the way of the new row. */
  lemma RetiredLeavesRoom(rs: seq<Release>, plugin: string, v: Verdict)
    ensures PendingRow(Retired(rs, plugin, v), plugin).None?
    ensures v.state == Approved ==> LiveRow(Retired(rs, plugin, v), plugin).None?
    ensures forall version :: RowWithVersion(rs, plugin, version).None? ==> RowWithVersion(Retired(rs, plugin, v), plugin, version).None?
  {
    var ss := Retired(rs, plugin, v);
    forall i | 0 <= i < |rs|
      ensures ss[i].plugin == rs[i].plugin && ss[i].version == rs[i].version
      ensures ss[i].plugin == plugin ==> ss[i].state != Pending && (v.state == Approved ==> ss[i].state != Approved)
    {
    }
  }

  /** An approval violates a constraint exactly when everything else about it is in order and the
      reviewer is no account. */
  lemma DecisionsAreNeverRefused(lib: Lib, w: World, release: string, reviewer: string, note: string, now: int)
    requires Reachable(lib, w)
    ensures ApproveTx(w.db, release, reviewer, note, now).1 == Err(ConstraintViolated)
       <==> && ByteLen(TrimSpace(note)) <= MAX_REASON_BYTES && PendingAt(w.db.releases, release).Ok?
            && w.db.releases[PendingAt(w.db.releases, release).value].verifiedAt.Some? && reviewer !in w.db.accounts
  {
    hide WorldOk, DbOk, TrimSpace, ByteLen, ApproveAdmitted, RowWithId, LiveRow, Reachable;
    ReachableOk(lib, w);
    DbIn(lib, w);
    var rs := w.db.releases;
    var found := PendingAt(rs, release);
    if found.Ok? {
      VerifiedHasHash(w.db, found.value);
      if rs[found.value].sha256.Some? {
        ApprovalFits(w.db.accounts, rs, found.value, release, reviewer);
        NoBlankAccount(w.db);
      }
    }
  }

  lemma VerifiedHasHash(db: Db, k: nat)
    requires DbOk(db) && k < |db.releases| && db.releases[k].state == Pending
    ensures db.releases[k].sha256.Some? <==> db.releases[k].verifiedAt.Some?
  {
    StatesOfDb(db);
    hide DbOk;
    assert StateOk(db.releases[k]);
  }

  lemma NoBlankAccount(db: Db)
    requires DbOk(db)
    ensures "" !in db.accounts
  {
    hide TableOk, ForeignKeysOk, PluginsOk, GrantsOk, KeysPoint, RowsKeyed, KeysInjective, LogOk;
  }

  /** Neither is anything else a reviewer who is an account does, nor any change of owners by anybody. */
  lemma SignedInAreNeverRefused(lib: Lib, w: World, reviewer: string, id: string, note: string, level: Trust, now: int,
                                row: Release, fetch: Fetch, target: Option<string>, other: string, role: Role)
    requires Reachable(lib, w)
    ensures reviewer in w.db.accounts ==>
              && RejectTx(w.db, id, reviewer, note, now).1 != Err(ConstraintViolated)
              && ReverifyTx(w.db, row, reviewer, fetch).1 != Err(ConstraintViolated)
              && SetTrustTx(w.db, other, level, reviewer, note).1 != Err(ConstraintViolated)
              && DelistTx(w.db, id, reviewer, note, now).1 != Err(ConstraintViolated)
              && RelistTx(w.db, id, reviewer, note).1 != Err(ConstraintViolated)
    ensures AddTx(w.db, id, other, target, role).1 != Err(ConstraintViolated)
    ensures RemoveTx(w.db, id, other, reviewer).1 != Err(ConstraintViolated)
  {
    hide WorldOk, TableOk, ForeignKeysOk, PluginsOk, KeysPoint, RowsKeyed, KeysInjective, LogOk, TrimSpace, ByteLen, RowWithId;
    hide Reachable, LiveRow, Holders;
    ReachableOk(lib, w);
    DbIn(lib, w);
  }

  /** A claim violates a constraint exactly when it is in order and the claimant is no account. */
  lemma ClaimsAreNeverRefused(lib: Lib, w: World, claim: Claim, account: string)
    requires Reachable(lib, w) && IsPluginId(claim.plugin)
    ensures ClaimTx(w.db, claim, account).1 == Err(ConstraintViolated)
       <==> ClaimUsable(TrimClaim(claim)) && claim.plugin !in w.db.plugins && account !in w.db.accounts
  {
    hide WorldOk, TableOk, ForeignKeysOk, PluginsOk, KeysPoint, RowsKeyed, KeysInjective, LogOk;
    hide Reachable, ClaimUsable, TrimSpace, PluginChecks;
    ReachableOk(lib, w);
    DbIn(lib, w);
    if ClaimUsable(TrimClaim(claim)) {
      ClaimedPluginFits(TrimClaim(claim));
    }
  }

  lemma ClaimedPluginFits(c: Claim)
    requires ClaimUsable(c) && IsPluginId(c.plugin)
    ensures PluginChecks(c.plugin, ClaimedPlugin(c))
  {
    hide IsPublishableUrl, ByteLen;
    SqlLengthOfNulFree(c.plugin);
    SqlLengthOfNulFree(c.name);
  }

  // ---- nobody rewrites what was decided ----

  /** Over any run, what was submitted never changes, nor does a stored hash, size or verification
      time, and once a release has left pending nothing does, but that a live one is superseded. */
  lemma DecidedIsFrozen(lib: Lib, w: World, ls: seq<Label>, i: nat)
    requires Reachable(lib, w) && i < |w.db.releases|
    ensures i < |Run(lib, w, ls).db.releases|
    ensures var r, s := w.db.releases[i], Run(lib, w, ls).db.releases[i];
            && s.id == r.id && s.plugin == r.plugin && s.version == r.version && s.source == r.source
            && s.url == r.url && s.sdk == r.sdk && s.minApp == r.minApp && s.notes == r.notes
            && s.submittedBy == r.submittedBy && s.submittedAt == r.submittedAt
            && (r.sha256.Some? ==> s.sha256 == r.sha256) && (r.bytes.Some? ==> s.bytes == r.bytes)
            && (r.verifiedAt.Some? ==> s.verifiedAt == r.verifiedAt)
            && (r.state != Pending ==>
                  s == r || (r.state == Approved && s == r.(state := Superseded)))
  {
    hide WorldOk, LiveAdvances, Run;
    ReachableOk(lib, w);
    RunKeeps(lib, w, ls);
    assert RowEvolves(w.db.releases[i], Run(lib, w, ls).db.releases[i]);
  }

  // ---- what stands behind an automatic release ----

  /** Of the rows whose columns say they were live, the earliest of a plugin was imported or approved by
      a reviewer. */
  lemma EarliestLiveRowIsHuman(lib: Lib, w: World, i: nat)
    requires Reachable(lib, w) && i < |w.db.releases| && WentLive(w.db.releases[i])
    requires forall k :: 0 <= k < i && w.db.releases[k].plugin == w.db.releases[i].plugin ==> !WentLive(w.db.releases[k])
    ensures HumanLive(w.db.releases[i])
  {
    hide WorldOk, DbOk;
    ReachableOk(lib, w);
    DbIn(lib, w);
    LiveKeptOfDb(w.db);
    StatesOfDb(w.db);
    assert StateOk(w.db.releases[i]);
    if w.db.releases[i].note == Some(AutoPublished) {
      AutoHasEarlier(w.db.releases, i);
    }
  }

  lemma AutoHasEarlier(rs: seq<Release>, i: nat)
    requires AutoRooted(rs) && i < |rs| && rs[i].note == Some(AutoPublished)
    ensures exists k :: 0 <= k < i && rs[k].plugin == rs[i].plugin && WentLive(rs[k])
  {
    var k: nat :| RootedAt(rs, k, i);
  }

  /** A release goes live without a reviewer only over a live predecessor it is ahead of, and only
      while its submitter is trusted and holds the plugin. */
  lemma AutomaticNeedsTrustAndPredecessor(lib: Lib, w: World, c: nat, req: Request, trust: Trust, prev: Previous,
                                          fetch: Fetch, id: string, now: int)
    requires Reachable(lib, w) && c in w.calls && w.calls[c] == PublishCall(req, Recording(trust, prev, fetch))
    requires var r := RecordTx(w.db, req, Decide(lib, prev, trust, req.sub, fetch), id, now).1;
             r.Ok? && r.value.state == Approved
    ensures (req.sub.plugin, req.account) in w.db.grants && req.account in w.db.trust && w.db.trust[req.account] == Trusted
    ensures fetch.Fetched? && req.sub.submitted != "" && fetch.computed.digest == req.sub.submitted
    ensures exists i :: 0 <= i < |w.db.releases| && w.db.releases[i].plugin == req.sub.plugin && w.db.releases[i].state == Approved
                        && Compare(w.db.releases[i].version, req.sub.version) == Higher
  {
    hide RecordTx, Decide, Recorded, Compare, LiveRow, SizeChangedSharply;
    var v := Decide(lib, prev, trust, req.sub, fetch);
    CommittedMeans(w.db, req, v, id, now);
    CommittedApproved(lib, w.db, req, trust, prev, fetch, id, now);
    NarrowedApproved(v, TrustOf(w.db.trust, req.account));
    ApprovedMeans(lib, prev, trust, req.sub, fetch);
    assert w.db.releases[LiveRow(w.db.releases, req.sub.plugin).value].state == Approved;
  }

  lemma NarrowedApproved(v: Verdict, trustNow: Trust)
    ensures Narrow(v, trustNow).state == Approved ==> v.state == Approved && Narrow(v, trustNow) == v
  {
  }
}
