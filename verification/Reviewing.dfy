/** The review queue's decisions, the repair of a failed fetch, trust, and a moderator's listing changes. */
module Reviewing {
  import opened Basics
  import opened Notes
  import opened Tables
  import opened Publishing

  const MAX_REASON_BYTES := 2048

  datatype Decision = Decision(release: string, plugin: string, version: string, superseded: Option<string>)

  datatype Verification = Verification(release: string, plugin: string, version: string,
                                       computed: Option<Computed>, failure: Option<string>)

  /** pendingTx: the row, if it exists and is waiting. */
  function PendingAt(rs: seq<Release>, id: string): (r: Result<nat, Error>)
    ensures r.Ok? ==> r.value < |rs| && rs[r.value].id == id && rs[r.value].state == Pending
    ensures r.Ok? <==> PendingWith(rs, id)
    ensures r.Ok? ==> RowWithId(rs, id) == Some(r.value)
    ensures r == Err(NoSuchRelease) <==> RowWithId(rs, id).None?
    ensures r == Err(NotPending) <==> RowWithId(rs, id).Some? && rs[RowWithId(rs, id).value].state != Pending
  {
    match RowWithId(rs, id)
    case None => Err(NoSuchRelease)
    case Some(k) => if rs[k].state != Pending then Err(NotPending) else Ok(k)
  }

  function ReasonProblem(reason: string, missing: Error): Option<Error> {
    if reason == "" then Some(missing) else if ByteLen(reason) > MAX_REASON_BYTES then Some(ReasonTooLong) else None
  }

  // ---- Approve ----

  function ApproveNote(note: string): Option<ReviewNote> {
    if note == "" then None else Some(ByReviewer(note))
  }

  /** The release table with the live row retired, if there is one. */
  function WithoutLive(rs: seq<Release>, plugin: string): (r: seq<Release>)
    ensures |r| == |rs|
  {
    if LiveRow(rs, plugin).Some? then SupersedeWhere(rs, plugin, Approved) else rs
  }

  function ApprovedRows(rs: seq<Release>, k: nat, reviewer: string, note: string, now: int): (r: seq<Release>)
    requires k < |rs|
    ensures |r| == |rs|
  {
    ReviewWhere(WithoutLive(rs, rs[k].plugin), rs[k].id, Review(Approved, reviewer, now, ApproveNote(note)))
  }

  function LiveId(rs: seq<Release>, plugin: string): Option<string> {
    match LiveRow(rs, plugin)
    case None => None
    case Some(i) => Some(rs[i].id)
  }

  function ApproveTx(db: Db, id: string, reviewer: string, rawNote: string, now: int): (Db, Result<Decision, Error>) {
    var note := TrimSpace(rawNote);
    if ByteLen(note) > MAX_REASON_BYTES then (db, Err(ReasonTooLong))
    else match PendingAt(db.releases, id)
      case Err(e) => (db, Err(e))
      case Ok(k) =>
        var row := db.releases[k];
        if row.verifiedAt.None? || row.sha256.None? then (db, Err(NotVerifiedYet))
        else if !ApproveAdmitted(db.accounts, WithoutLive(db.releases, row.plugin), id, reviewer) then (db, Err(ConstraintViolated))
        else if ActorProblem(db.accounts, ByAccount(reviewer)).Some?
        then (db, Err(ActorProblem(db.accounts, ByAccount(reviewer)).value))
        else
          var superseded := LiveId(db.releases, row.plugin);
          var event := ApproveEvent(id, row.plugin, row.version, row.sha256.value, superseded, note);
          (db.(releases := ApprovedRows(db.releases, k, reviewer, note, now),
               audit := db.audit + [Entry(ByAccount(reviewer), event)]),
           Ok(Decision(id, row.plugin, row.version, superseded)))
  }

  lemma ApprovalFits(accounts: map<string, Account>, rs: seq<Release>, k: nat, release: string, reviewer: string)
    requires RowWithId(rs, release) == Some(k) && rs[k].state == Pending && rs[k].sha256.Some?
    ensures ApproveAdmitted(accounts, WithoutLive(rs, rs[k].plugin), release, reviewer) <==> reviewer in accounts
  {
    hide LiveRow, RowWithId;
    StillPending(rs, k);
    WithoutLiveHasNone(rs, rs[k].plugin);
    RowWithIdReadsIds(rs, WithoutLive(rs, rs[k].plugin), release);
  }

  lemma WithoutLiveHasNone(rs: seq<Release>, plugin: string)
    ensures LiveRow(WithoutLive(rs, plugin), plugin).None?
  {
    var ss := WithoutLive(rs, plugin);
    forall i | 0 <= i < |rs|
      ensures !(ss[i].plugin == plugin && ss[i].state == Approved)
    {
    }
  }

  /** An approval in order succeeds, whether or not another release of the plugin is live. */
  lemma ApproveSucceedsWhen(db: Db, id: string, reviewer: string, rawNote: string, now: int)
    ensures ApproveTx(db, id, reviewer, rawNote, now).1.Ok?
       <==> && ByteLen(TrimSpace(rawNote)) <= 2048 && PendingWith(db.releases, id)
            && db.releases[RowWithId(db.releases, id).value].verifiedAt.Some?
            && db.releases[RowWithId(db.releases, id).value].sha256.Some?
            && reviewer in db.accounts && reviewer != ""
  {
    hide TrimSpace, ByteLen, ApproveAdmitted, RowWithId, LiveRow;
    var found := PendingAt(db.releases, id);
    if found.Ok? && db.releases[found.value].sha256.Some? {
      ApprovalFits(db.accounts, db.releases, found.value, id, reviewer);
    }
  }

  method Approve(store: Store, id: string, reviewer: string, rawNote: string, now: int)
    returns (r: Result<Decision, Error>)
    modifies store
    ensures (store.Contents(), r) == ApproveTx(old(store.Contents()), id, reviewer, rawNote, now)
    ensures r.Ok? <==> old(&& ByteLen(TrimSpace(rawNote)) <= 2048 && PendingWith(store.releases, id)
                           && store.releases[RowWithId(store.releases, id).value].verifiedAt.Some?
                           && store.releases[RowWithId(store.releases, id).value].sha256.Some?
                           && reviewer in store.accounts && reviewer != "")
  {
    ApproveSucceedsWhen(store.Contents(), id, reviewer, rawNote, now);
    var note := TrimSpace(rawNote);
    if ByteLen(note) > MAX_REASON_BYTES {
      return Err(ReasonTooLong);
    }
    var begun := store.Contents();
    r := ApproveBody(store, id, reviewer, note, now);
    if r.Err? {
      store.Rollback(begun);
    }
  }

  method ApproveBody(store: Store, id: string, reviewer: string, note: string, now: int)
    returns (r: Result<Decision, Error>)
    requires TrimSpace(note) == note && ByteLen(note) <= MAX_REASON_BYTES
    modifies store
    ensures r == ApproveTx(old(store.Contents()), id, reviewer, note, now).1
    ensures r.Ok? ==> store.Contents() == ApproveTx(old(store.Contents()), id, reviewer, note, now).0
  {
    hide TrimSpace, ByteLen, ApproveAdmitted, ActorProblem, RowWithId, LiveRow;
    var found := PendingAt(store.releases, id);
    if found.Err? {
      return Err(found.error);
    }
    var row := store.releases[found.value];
    if row.verifiedAt.None? || row.sha256.None? {
      return Err(NotVerifiedYet);
    }
    ghost var before := store.releases;
    var superseded: Option<string> := None;
    var prior := LiveRow(store.releases, row.plugin);
    if prior.Some? {
      superseded := Some(store.releases[prior.value].id);
      store.Supersede(row.plugin, Approved);
    }
    StillPending(before, found.value);
    var error := MarkApproved(store, id, Review(Approved, reviewer, now, ApproveNote(note)),
                              ApproveEvent(id, row.plugin, row.version, row.sha256.value, superseded, note));
    r := if error.Some? then Err(error.value) else Ok(Decision(id, row.plugin, row.version, superseded));
  }

  /** Retiring the live row leaves a pending one where it was. */
  lemma StillPending(rs: seq<Release>, k: nat)
    requires k < |rs| && RowWithId(rs, rs[k].id) == Some(k) && rs[k].state == Pending
    ensures WithoutLive(rs, rs[k].plugin)[k] == rs[k]
    ensures PendingWith(WithoutLive(rs, rs[k].plugin), rs[k].id)
  {
    RowWithIdReadsIds(rs, WithoutLive(rs, rs[k].plugin), rs[k].id);
  }

  method MarkApproved(store: Store, id: string, v: Review, event: Event) returns (error: Option<Error>)
    requires v.state == Approved && PendingWith(store.releases, id)
    modifies store`releases, store`audit
    ensures error == if !ApproveAdmitted(store.accounts, old(store.releases), id, v.reviewer) then Some(ConstraintViolated)
                     else ActorProblem(store.accounts, ByAccount(v.reviewer))
    ensures error.None? ==>
              && store.releases == ReviewWhere(old(store.releases), id, v)
              && store.audit == old(store.audit) + [Entry(ByAccount(v.reviewer), event)]
  {
    var ok, changed := store.ApproveRelease(id, v);
    if !ok {
      return Some(ConstraintViolated);
    }
    if !changed {
      return Some(NotPending);
    }
    error := store.Record(ByAccount(v.reviewer), event);
  }

  // ---- Reject ----

  function RejectTx(db: Db, id: string, reviewer: string, rawReason: string, now: int): (Db, Result<Decision, Error>) {
    var reason := TrimSpace(rawReason);
    match ReasonProblem(reason, NoReason)
    case Some(e) => (db, Err(e))
    case None =>
      match PendingAt(db.releases, id)
      case Err(e) => (db, Err(e))
      case Ok(k) =>
        var row := db.releases[k];
        if reviewer !in db.accounts then (db, Err(ConstraintViolated))
        else if ActorProblem(db.accounts, ByAccount(reviewer)).Some?
        then (db, Err(ActorProblem(db.accounts, ByAccount(reviewer)).value))
        else
          (db.(releases := ReviewWhere(db.releases, id, Review(Rejected, reviewer, now, Some(ByReviewer(reason)))),
               audit := db.audit + [Entry(ByAccount(reviewer), RejectEvent(id, row.plugin, row.version, reason))]),
           Ok(Decision(id, row.plugin, row.version, None)))
  }

  method Reject(store: Store, id: string, reviewer: string, rawReason: string, now: int)
    returns (r: Result<Decision, Error>)
    modifies store
    ensures (store.Contents(), r) == RejectTx(old(store.Contents()), id, reviewer, rawReason, now)
  {
    var reason := TrimSpace(rawReason);
    var problem := ReasonProblem(reason, NoReason);
    if problem.Some? {
      return Err(problem.value);
    }
    var begun := store.Contents();
    var found := PendingAt(store.releases, id);
    if found.Err? {
      return Err(found.error);
    }
    var row := store.releases[found.value];
    var ok, changed := store.RejectRelease(id, Review(Rejected, reviewer, now, Some(ByReviewer(reason))));
    if !ok || !changed {
      return Err(if !ok then ConstraintViolated else NotPending);
    }
    problem := store.Record(ByAccount(reviewer), RejectEvent(id, row.plugin, row.version, reason));
    if problem.Some? {
      store.Rollback(begun);
      return Err(problem.value);
    }
    r := Ok(Decision(id, row.plugin, row.version, None));
  }

  // ---- Reverify ----

  /** The read before the fetch: only a waiting release that carries no hash. */
  function ReverifyRead(rs: seq<Release>, id: string): (r: Result<nat, Error>)
    ensures r.Ok? ==> RowWithId(rs, id) == Some(r.value)
    ensures r.Ok? <==> PendingWith(rs, id) && rs[RowWithId(rs, id).value].verifiedAt.None?
    ensures r == Err(AlreadyVerified) <==> PendingWith(rs, id) && rs[RowWithId(rs, id).value].verifiedAt.Some?
    ensures !PendingWith(rs, id) ==> r.Err? && PendingAt(rs, id) == Err(r.error)
  {
    match PendingAt(rs, id)
    case Err(e) => Err(e)
    case Ok(k) => if rs[k].verifiedAt.Some? then Err(AlreadyVerified) else Ok(k)
  }

  function FetchedDigest(f: Fetch): Option<string> {
    if f.Fetched? then Some(f.computed.digest) else None
  }

  /** Why the bytes could still not be read. */
  function Failure(f: Fetch): Option<string> {
    if f.FetchFailed? then Some(f.reason) else None
  }

  /** The transaction after the fetch. `row` is what was read before it. */
  function ReverifyTx(db: Db, row: Release, reviewer: string, fetch: Fetch): (Db, Result<Verification, Error>) {
    match PendingAt(db.releases, row.id)
    case Err(e) => (db, Err(e))
    case Ok(k) =>
      if fetch.Fetched? && db.releases[k].verifiedAt.Some? then (db, Err(AlreadyVerified))
      else if ActorProblem(db.accounts, ByAccount(reviewer)).Some?
      then (db, Err(ActorProblem(db.accounts, ByAccount(reviewer)).value))
      else
        var event := ReverifyEvent(row.id, row.plugin, row.version, FetchedDigest(fetch), Failure(fetch));
        (db.(releases := if fetch.Fetched? then VerifyWhere(db.releases, row.id, fetch.computed) else db.releases,
             audit := db.audit + [Entry(ByAccount(reviewer), event)]),
         Ok(Verification(row.id, row.plugin, row.version,
                         if fetch.Fetched? then Some(fetch.computed) else None, Failure(fetch))))
  }

  method RecordVerification(store: Store, row: Release, reviewer: string, fetch: Fetch)
    returns (r: Result<Verification, Error>)
    modifies store
    ensures (store.Contents(), r) == ReverifyTx(old(store.Contents()), row, reviewer, fetch)
  {
    var begun := store.Contents();
    var found := PendingAt(store.releases, row.id);
    if found.Err? {
      return Err(found.error);
    }
    if fetch.Fetched? {
      var changed := store.RecordReleaseVerification(row.id, fetch.computed);
      if !changed {
        store.Rollback(begun);
        return Err(AlreadyVerified);
      }
    }
    var event := ReverifyEvent(row.id, row.plugin, row.version, FetchedDigest(fetch), Failure(fetch));
    var recorded := store.Record(ByAccount(reviewer), event);
    if recorded.Some? {
      store.Rollback(begun);
      return Err(recorded.value);
    }
    r := Ok(Verification(row.id, row.plugin, row.version,
                         if fetch.Fetched? then Some(fetch.computed) else None, Failure(fetch)));
  }

  /** What one call does to a database that nobody else touches while it runs. */
  function ReverifyAlone(db: Db, id: string, reviewer: string, fetch: Fetch): (Db, Result<Verification, Error>) {
    match ReverifyRead(db.releases, id)
    case Err(e) => (db, Err(e))
    case Ok(k) => ReverifyTx(db, db.releases[k], reviewer, fetch)
  }

  /** A re-verification of a blank succeeds, whether or not the bytes can be read this time. */
  lemma ReverifySucceedsWhen(db: Db, id: string, reviewer: string, fetch: Fetch)
    ensures ReverifyAlone(db, id, reviewer, fetch).1.Ok?
       <==> && PendingWith(db.releases, id) && db.releases[RowWithId(db.releases, id).value].verifiedAt.None?
            && reviewer in db.accounts && reviewer != ""
  {
    hide RowWithId;
  }

  method Reverify(store: Store, id: string, reviewer: string, fetch: Fetch) returns (r: Result<Verification, Error>)
    modifies store
    ensures (store.Contents(), r) == ReverifyAlone(old(store.Contents()), id, reviewer, fetch)
    ensures r.Ok? <==> old(&& PendingWith(store.releases, id)
                           && store.releases[RowWithId(store.releases, id).value].verifiedAt.None?
                           && reviewer in store.accounts && reviewer != "")
  {
    ReverifySucceedsWhen(store.Contents(), id, reviewer, fetch);
    var found := ReverifyRead(store.releases, id);
    if found.Err? {
      return Err(found.error);
    }
    r := RecordVerification(store, store.releases[found.value], reviewer, fetch);
  }

  // ---- trust ----

  function SetTrustTx(db: Db, account: string, level: Trust, reviewer: string, rawNote: string): (Db, Result<(), Error>) {
    match ReasonProblem(TrimSpace(rawNote), NoTrustReason)
    case Some(e) => (db, Err(e))
    case None =>
      if account !in db.accounts then (db, Err(NoSuchAccount))
      else if reviewer !in db.accounts then (db, Err(ConstraintViolated))
      else if ActorProblem(db.accounts, ByAccount(reviewer)).Some?
      then (db, Err(ActorProblem(db.accounts, ByAccount(reviewer)).value))
      else
        var event := TrustEvent(account, TrustOf(db.trust, account), level, TrimSpace(rawNote));
        (db.(trust := db.trust[account := level], audit := db.audit + [Entry(ByAccount(reviewer), event)]), Ok(()))
  }

  method SetTrust(store: Store, account: string, level: Trust, reviewer: string, rawNote: string)
    returns (r: Result<(), Error>)
    modifies store
    ensures (store.Contents(), r) == SetTrustTx(old(store.Contents()), account, level, reviewer, rawNote)
  {
    var note := TrimSpace(rawNote);
    var problem := ReasonProblem(note, NoTrustReason);
    if problem.Some? {
      return Err(problem.value);
    }
    var begun := store.Contents();
    if account !in store.accounts {
      return Err(NoSuchAccount);
    }
    var previous := TrustOf(store.trust, account);
    var ok := store.SetAccountTrust(account, level, reviewer);
    if !ok {
      return Err(ConstraintViolated);
    }
    problem := store.Record(ByAccount(reviewer), TrustEvent(account, previous, level, note));
    if problem.Some? {
      store.Rollback(begun);
      return Err(problem.value);
    }
    r := Ok(());
  }

  // ---- Delist and Relist ----

  function LiveVersion(rs: seq<Release>, plugin: string): string {
    match LiveRow(rs, plugin)
    case None => ""
    case Some(i) => rs[i].version
  }

  function DelistTx(db: Db, plugin: string, reviewer: string, rawReason: string, now: int): (Db, Result<(), Error>) {
    var reason := TrimSpace(rawReason);
    match ReasonProblem(reason, NoReason)
    case Some(e) => (db, Err(e))
    case None =>
      if plugin !in db.plugins then (db, Err(NoSuchPlugin))
      else if db.plugins[plugin].delistedAt.Some? then (db, Err(AlreadyDelisted))
      else if ActorProblem(db.accounts, ByAccount(reviewer)).Some?
      then (db, Err(ActorProblem(db.accounts, ByAccount(reviewer)).value))
      else
        var event := DelistEvent(plugin, reason, LiveVersion(db.releases, plugin));
        var p := db.plugins[plugin].(delistedAt := Some(now), delistedReason := Some(reason));
        (db.(plugins := db.plugins[plugin := p], audit := db.audit + [Entry(ByAccount(reviewer), event)]), Ok(()))
  }

  method Delist(store: Store, plugin: string, reviewer: string, rawReason: string, now: int)
    returns (r: Result<(), Error>)
    modifies store
    ensures (store.Contents(), r) == DelistTx(old(store.Contents()), plugin, reviewer, rawReason, now)
  {
    var reason := TrimSpace(rawReason);
    var problem := ReasonProblem(reason, NoReason);
    if problem.Some? {
      return Err(problem.value);
    }
    var begun := store.Contents();
    if plugin !in store.plugins {
      return Err(NoSuchPlugin);
    }
    var version := LiveVersion(store.releases, plugin);
    var changed := store.DelistPlugin(plugin, now, reason);
    if !changed {
      return Err(AlreadyDelisted);
    }
    var recorded := store.Record(ByAccount(reviewer), DelistEvent(plugin, reason, version));
    if recorded.Some? {
      store.Rollback(begun);
      return Err(recorded.value);
    }
    r := Ok(());
  }

  function RelistTx(db: Db, plugin: string, reviewer: string, rawReason: string): (Db, Result<(), Error>) {
    var reason := TrimSpace(rawReason);
    match ReasonProblem(reason, NoReason)
    case Some(e) => (db, Err(e))
    case None =>
      if plugin !in db.plugins then (db, Err(NoSuchPlugin))
      else if db.plugins[plugin].delistedAt.None? then (db, Err(NotDelisted))
      else if ActorProblem(db.accounts, ByAccount(reviewer)).Some?
      then (db, Err(ActorProblem(db.accounts, ByAccount(reviewer)).value))
      else
        var was := db.plugins[plugin].delistedReason;
        var event := RelistEvent(plugin, reason, if was.Some? then was.value else "");
        var p := db.plugins[plugin].(delistedAt := None, delistedReason := None);
        (db.(plugins := db.plugins[plugin := p], audit := db.audit + [Entry(ByAccount(reviewer), event)]), Ok(()))
  }

  method Relist(store: Store, plugin: string, reviewer: string, rawReason: string)
    returns (r: Result<(), Error>)
    modifies store
    ensures (store.Contents(), r) == RelistTx(old(store.Contents()), plugin, reviewer, rawReason)
  {
    var reason := TrimSpace(rawReason);
    var problem := ReasonProblem(reason, NoReason);
    if problem.Some? {
      return Err(problem.value);
    }
    var begun := store.Contents();
    if plugin !in store.plugins {
      return Err(NoSuchPlugin);
    }
    var was := store.plugins[plugin].delistedReason;
    var changed := store.RelistPlugin(plugin);
    if !changed {
      return Err(NotDelisted);
    }
    var recorded := store.Record(ByAccount(reviewer), RelistEvent(plugin, reason, if was.Some? then was.value else ""));
    if recorded.Some? {
      store.Rollback(begun);
      return Err(recorded.value);
    }
    r := Ok(());
  }

  // ---- what one decision leaves of another ----

  /** The log grew by one row of `account`'s. */
  ghost predicate LoggedOnce(db: Db, d: Db, account: string) {
    |d.audit| == |db.audit| + 1 && db.audit <= d.audit && d.audit[|db.audit|].actor == ByAccount(account)
  }

  /** Nothing but releases and the log is different. */
  ghost predicate OnlyReleases(db: Db, d: Db) {
    d == db.(releases := d.releases, audit := d.audit)
  }

  /** An approval changes the row decided, retires the plugin's live row, and touches nothing else; one
      that is refused changes nothing. */
  lemma ApproveTouchesTwoRows(db: Db, id: string, reviewer: string, rawNote: string, now: int)
    requires forall i, j :: 0 <= i < j < |db.releases| ==> db.releases[i].id != db.releases[j].id
    ensures var (d, r) := ApproveTx(db, id, reviewer, rawNote, now);
            if r.Err? then d == db
            else
              && OnlyReleases(db, d) && LoggedOnce(db, d, reviewer) && |d.releases| == |db.releases|
              && forall i :: 0 <= i < |db.releases| ==>
                   var before, after := db.releases[i], d.releases[i];
                   if before.id == id then
                     && before.state == Pending && before.verifiedAt.Some?
                     && after == before.(state := Approved, reviewedBy := Some(reviewer), reviewedAt := Some(now),
                                         note := ApproveNote(TrimSpace(rawNote)))
                   else if before.plugin == r.value.plugin && before.state == Approved then after == before.(state := Superseded)
                   else after == before
  {
    hide TrimSpace, ByteLen, ApproveAdmitted, RowWithId, LiveRow;
  }

  /** A rejection changes the row decided and nothing else. */
  lemma RejectTouchesOneRow(db: Db, id: string, reviewer: string, rawReason: string, now: int)
    requires forall i, j :: 0 <= i < j < |db.releases| ==> db.releases[i].id != db.releases[j].id
    ensures var (d, r) := RejectTx(db, id, reviewer, rawReason, now);
            if r.Err? then d == db
            else
              && OnlyReleases(db, d) && LoggedOnce(db, d, reviewer) && |d.releases| == |db.releases|
              && forall i :: 0 <= i < |db.releases| ==>
                   var before, after := db.releases[i], d.releases[i];
                   if before.id == id then before.state == Pending && after.state == Rejected && after.sha256 == before.sha256
                   else after == before
  {
    hide TrimSpace, ByteLen, RowWithId;
  }

  /** A release is decided once: whatever was decided, every later approval, rejection and
      re-verification of it finds it no longer pending. */
  lemma DecidedOnce(db: Db, id: string, reviewer: string, text: string, now: int)
    ensures var (d, r) := ApproveTx(db, id, reviewer, text, now); r.Ok? ==> PendingAt(d.releases, id) == Err(NotPending)
    ensures var (d, r) := RejectTx(db, id, reviewer, text, now); r.Ok? ==> PendingAt(d.releases, id) == Err(NotPending)
  {
    hide TrimSpace, ByteLen, ApproveAdmitted, LiveRow, ActorProblem, RowWithId, ApprovedRows, ReviewWhere, WithoutLive;
    var rs, note := db.releases, TrimSpace(text);
    var found := PendingAt(rs, id);
    if found.Ok? {
      ReviewedIsNotPending(rs, id, Review(Rejected, reviewer, now, Some(ByReviewer(note))));
      StillPending(rs, found.value);
      ApprovedIsReviewed(rs, found.value, reviewer, note, now);
      ReviewedIsNotPending(WithoutLive(rs, rs[found.value].plugin), id, Review(Approved, reviewer, now, ApproveNote(note)));
    }
  }

  lemma ApprovedIsReviewed(rs: seq<Release>, k: nat, reviewer: string, note: string, now: int)
    requires k < |rs|
    ensures ApprovedRows(rs, k, reviewer, note, now)
         == ReviewWhere(WithoutLive(rs, rs[k].plugin), rs[k].id, Review(Approved, reviewer, now, ApproveNote(note)))
  {
  }

  lemma ReviewedIsNotPending(rs: seq<Release>, id: string, v: Review)
    requires PendingWith(rs, id) && v.state != Pending
    ensures PendingAt(ReviewWhere(rs, id, v), id) == Err(NotPending)
  {
    hide RowWithId;
    RowWithIdReadsIds(rs, ReviewWhere(rs, id, v), id);
  }

  /** A blank is filled once: after a re-verification that read the bytes, a second one that reads them
      is refused, and one that does not leaves the releases as they are. */
  lemma FilledOnce(db: Db, row: Release, reviewer: string, fetch: Fetch, again: Fetch)
    requires fetch.Fetched? && ReverifyTx(db, row, reviewer, fetch).1.Ok?
    ensures var d := ReverifyTx(db, row, reviewer, fetch).0;
            && OnlyReleases(db, d) && LoggedOnce(db, d, reviewer)
            && (again.Fetched? ==> ReverifyTx(d, row, reviewer, again) == (d, Err(AlreadyVerified)))
            && (again.FetchFailed? ==> ReverifyTx(d, row, reviewer, again).1.Ok? && ReverifyTx(d, row, reviewer, again).0.releases == d.releases)
  {
    RowWithIdReadsIds(db.releases, VerifyWhere(db.releases, row.id, fetch.computed), row.id);
  }

  /** A tier that was set is the tier read from then on, and nobody else's changed. */
  lemma TrustIsWhatWasSet(db: Db, account: string, level: Trust, reviewer: string, rawNote: string, other: string)
    ensures var (d, r) := SetTrustTx(db, account, level, reviewer, rawNote);
            if r.Err? then d == db
            else
              && TrustOf(d.trust, account) == level && (other != account ==> TrustOf(d.trust, other) == TrustOf(db.trust, other))
              && d == db.(trust := d.trust, audit := d.audit) && LoggedOnce(db, d, reviewer)
  {
    hide TrimSpace, ByteLen;
  }

  /** Relisting undoes delisting: the plugins are what they were, and nothing else but the log, which
      quotes the reason, was touched by either. */
  lemma RelistUndoesDelist(db: Db, plugin: string, reviewer: string, reason: string, now: int, other: string, why: string)
    requires DelistTx(db, plugin, reviewer, reason, now).1.Ok? && db.plugins[plugin].delistedReason.None?
    ensures var d := DelistTx(db, plugin, reviewer, reason, now).0;
            var (e, r) := RelistTx(d, plugin, other, why);
            && d == db.(plugins := d.plugins, audit := d.audit) && LoggedOnce(db, d, reviewer)
            && (r.Ok? <==> ReasonProblem(TrimSpace(why), NoReason).None? && ActorProblem(db.accounts, ByAccount(other)).None?)
            && (r.Ok? ==>
                  && e == db.(audit := e.audit) && LoggedOnce(d, e, other)
                  && e.audit[|d.audit|].event == RelistEvent(plugin, TrimSpace(why), TrimSpace(reason)))
  {
    hide TrimSpace, ByteLen, LiveRow;
    var d := DelistTx(db, plugin, reviewer, reason, now).0;
    assert d.plugins[plugin := db.plugins[plugin]] == db.plugins;
  }
}
