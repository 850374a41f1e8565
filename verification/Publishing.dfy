/** Accepting a release: the quarantine rules, the decision they and the submitter's trust lead to,
    and the transaction that records it. */
module Publishing {
  import opened Basics
  import opened Submissions
  import opened Versions
  import opened Tables

  /** What this module calls and does not define: SHA-256 in hex and the lower-cased hostname of a URL.
      Everything proved holds for every pair of functions. */
  datatype Lib = Lib(sha256: string -> HexDigest, hostOf: string -> string)

  /** What a fetch produced: the reason it failed, or the digest and size of the bytes read. */
  datatype Fetch = FetchFailed(reason: string) | Fetched(computed: Computed)

  /** The cap the fetcher enforces while it reads. */
  const MAX_ARTIFACT_BYTES := 52_428_800

  /** What the fetcher can return: a SHA-256 in hex and a size within the cap. */
  predicate FetchInRange(f: Fetch) {
    f.Fetched? ==> IsDigestHex(f.computed.digest) && 0 <= f.computed.bytes <= MAX_ARTIFACT_BYTES
  }

  /** What the plugin serves, for comparison. Nothing but `live` means anything when it is false. */
  datatype Previous = Previous(live: bool, version: string, url: string, bytes: Option<int>)

  const NO_PREVIOUS := Previous(false, "", "", None)

  datatype Verdict = Verdict(
    fetch: Fetch, verified: bool, review: ReviewNote, reasons: seq<Reason>,
    state: ReleaseState, comparedAgainst: string)

  datatype Request = Request(sub: Submission, account: string, key: string, hash: string)

  datatype Outcome = Outcome(
    release: string, state: ReleaseState, verified: bool, sha256: Option<string>, bytes: Option<int>,
    review: Option<ReviewNote>, replayed: bool,
    superseded: Option<string>, supersededPending: seq<string>, reasons: seq<Reason>)

  function HashRequest(lib: Lib, sub: Submission): string {
    lib.sha256(RequestPreimage(sub))
  }

  // ---- the quarantine rules ----

  /** The size moved by more than half, in 64-bit arithmetic. An unknown size does not fire. */
  function SizeChangedSharply(before: Option<int>, fetch: Fetch): bool {
    if before.None? || before.value <= 0 || fetch.FetchFailed? then false
    else
      var after := fetch.computed.bytes;
      var delta := if after > before.value then Wrap64(after - before.value) else Wrap64(before.value - after);
      Wrap64(delta * 2) > Wrap64(before.value * 1)
  }

  /** On sizes the fetcher can produce, the rule is the ratio it is meant to be: shrinking below
      half, or growing beyond half as much again. */
  lemma SizeRuleIsTheRatio(before: Option<int>, fetch: Fetch)
    requires FetchInRange(fetch)
    requires before.Some? ==> 0 <= before.value <= MAX_ARTIFACT_BYTES
    ensures SizeChangedSharply(before, fetch)
       <==> before.Some? && before.value > 0 && fetch.Fetched?
            && !(before.value <= 2 * fetch.computed.bytes && 2 * fetch.computed.bytes <= 3 * before.value)
  {
  }

  /** The rules about the bytes alone. */
  function ArtifactReasons(fetch: Fetch, verified: bool): seq<Reason> {
    if fetch.FetchFailed? then [NotVerified] else if !verified then [HashMismatch] else []
  }

  /** The rules about the change from the live release. */
  function ChangeReasons(lib: Lib, prev: Previous, sub: Submission, fetch: Fetch, order: VersionOrder): seq<Reason> {
    (if lib.hostOf(sub.url) != lib.hostOf(prev.url) then [HostChanged] else [])
    + (if SizeChangedSharply(prev.bytes, fetch) then [SizeDelta] else [])
    + (match order
       case Higher => []
       case Unknown => [VersionUncomparable]
       case _ => [VersionNotHigher])
  }

  /** Every rule that fires, in the order a reviewer reads them. */
  ghost function Reasons(lib: Lib, prev: Previous, sub: Submission, fetch: Fetch, verified: bool): seq<Reason> {
    ArtifactReasons(fetch, verified)
    + (if !prev.live then [FirstRelease]
       else ChangeReasons(lib, prev, sub, fetch, Compare(prev.version, sub.version)))
  }

  method EvaluateQuarantine(lib: Lib, prev: Previous, sub: Submission, fetch: Fetch, verified: bool)
    returns (reasons: seq<Reason>)
    ensures reasons == Reasons(lib, prev, sub, fetch, verified)
  {
    hide Compare, ChangeReasons, SizeChangedSharply;
    reasons := [];
    if fetch.FetchFailed? {
      reasons := reasons + [NotVerified];
    } else if !verified {
      reasons := reasons + [HashMismatch];
    }
    if !prev.live {
      return reasons + [FirstRelease];
    }
    var order := CompareVersions(prev.version, sub.version);
    reasons := AppendChangeReasons(reasons, lib, prev, sub, fetch, order);
  }

  method AppendChangeReasons(before: seq<Reason>, lib: Lib, prev: Previous, sub: Submission, fetch: Fetch,
                             order: VersionOrder) returns (reasons: seq<Reason>)
    ensures reasons == before + ChangeReasons(lib, prev, sub, fetch, order)
  {
    reasons := before;
    if lib.hostOf(sub.url) != lib.hostOf(prev.url) {
      reasons := reasons + [HostChanged];
    }
    if SizeChangedSharply(prev.bytes, fetch) {
      reasons := reasons + [SizeDelta];
    }
    match order
    case Higher =>
    case Unknown => reasons := reasons + [VersionUncomparable];
    case _ => reasons := reasons + [VersionNotHigher];
  }

  /** Nothing fires exactly when the bytes were fetched and are the ones the submitter claimed, the
      plugin is live, the host and the size held still, and the version is clearly ahead. */
  lemma NoReasonMeans(lib: Lib, prev: Previous, sub: Submission, fetch: Fetch, verified: bool)
    ensures Reasons(lib, prev, sub, fetch, verified) == []
       <==> fetch.Fetched? && verified && prev.live
            && lib.hostOf(sub.url) == lib.hostOf(prev.url)
            && !SizeChangedSharply(prev.bytes, fetch)
            && Compare(prev.version, sub.version) == Higher
  {
  }

  // ---- decide ----

  /** verify: the bytes were fetched and their digest is the submitted one. */
  predicate Verified(sub: Submission, fetch: Fetch) {
    fetch.Fetched? && sub.submitted != "" && sub.submitted == fetch.computed.digest
  }

  /** quarantineNote: a failed fetch's own sentence travels with the reasons. */
  function QuarantineNote(reasons: seq<Reason>, fetch: Fetch): ReviewNote {
    if reasons == [] then AwaitingHuman
    else Quarantined(reasons, if fetch.FetchFailed? then fetch.reason else "")
  }

  ghost function Decide(lib: Lib, prev: Previous, trust: Trust, sub: Submission, fetch: Fetch): Verdict {
    var verified := Verified(sub, fetch);
    var reasons := Reasons(lib, prev, sub, fetch, verified);
    if reasons == [] && trust == Trusted
    then Verdict(fetch, verified, AutoPublished, reasons, Approved, prev.version)
    else Verdict(fetch, verified, QuarantineNote(reasons, fetch), reasons, Pending, prev.version)
  }

  method DecideRelease(lib: Lib, prev: Previous, trust: Trust, sub: Submission, fetch: Fetch)
    returns (v: Verdict)
    ensures v == Decide(lib, prev, trust, sub, fetch)
    ensures v.state == Approved ==> fetch.Fetched? && fetch.computed.digest == sub.submitted && trust == Trusted && prev.live
  {
    var verified := Verified(sub, fetch);
    var reasons := EvaluateQuarantine(lib, prev, sub, fetch, verified);
    v := Verdict(fetch, verified, QuarantineNote(reasons, fetch), reasons, Pending, prev.version);
    if reasons == [] && trust == Trusted {
      v := v.(state := Approved, review := AutoPublished);
    }
    ApprovedMeans(lib, prev, trust, sub, fetch);
  }

  /** What an automatic publish takes, spelled out: above all, that the bytes read have the digest the
      submitter claimed. */
  lemma ApprovedMeans(lib: Lib, prev: Previous, trust: Trust, sub: Submission, fetch: Fetch)
    ensures Decide(lib, prev, trust, sub, fetch).state == Approved
       <==> trust == Trusted && prev.live
            && fetch.Fetched? && sub.submitted != "" && fetch.computed.digest == sub.submitted
            && lib.hostOf(sub.url) == lib.hostOf(prev.url)
            && !SizeChangedSharply(prev.bytes, fetch)
            && Compare(prev.version, sub.version) == Higher
  {
    hide Compare, SizeChangedSharply;
    NoReasonMeans(lib, prev, sub, fetch, Verified(sub, fetch));
  }

  /** Each rule is named exactly when it fires. The size rule is the ratio on sizes within the cap. */
  lemma ReasonsAreNamed(lib: Lib, prev: Previous, trust: Trust, sub: Submission, fetch: Fetch)
    requires sub.submitted != ""
    ensures var reasons := Decide(lib, prev, trust, sub, fetch).reasons;
            && (NotVerified in reasons <==> fetch.FetchFailed?)
            && (HashMismatch in reasons <==> fetch.Fetched? && fetch.computed.digest != sub.submitted)
            && (FirstRelease in reasons <==> !prev.live)
            && (HostChanged in reasons <==> prev.live && lib.hostOf(sub.url) != lib.hostOf(prev.url))
            && (SizeDelta in reasons <==> prev.live && SizeChangedSharply(prev.bytes, fetch))
            && (VersionUncomparable in reasons <==> prev.live && Compare(prev.version, sub.version) == Unknown)
            && (VersionNotHigher in reasons <==>
                  prev.live && (Compare(prev.version, sub.version) == Lower || Compare(prev.version, sub.version) == Equal))
  {
    hide Compare, SizeChangedSharply, ArtifactReasons, ChangeReasons;
    ArtifactReasonsNamed(fetch, Verified(sub, fetch));
    ChangeReasonsNamed(lib, prev, sub, fetch, Compare(prev.version, sub.version));
  }

  lemma ArtifactReasonsNamed(fetch: Fetch, verified: bool)
    ensures forall r :: r in ArtifactReasons(fetch, verified) <==>
              (r == NotVerified && fetch.FetchFailed?) || (r == HashMismatch && fetch.Fetched? && !verified)
  {
  }

  lemma ChangeReasonsNamed(lib: Lib, prev: Previous, sub: Submission, fetch: Fetch, order: VersionOrder)
    ensures forall r :: r in ChangeReasons(lib, prev, sub, fetch, order) <==>
              || (r == HostChanged && lib.hostOf(sub.url) != lib.hostOf(prev.url))
              || (r == SizeDelta && SizeChangedSharply(prev.bytes, fetch))
              || (r == VersionUncomparable && order == Unknown)
              || (r == VersionNotHigher && (order == Lower || order == Equal))
  {
    hide SizeChangedSharply;
  }

  function Rank(r: Reason): nat {
    match r
    case NotVerified => 0
    case HashMismatch => 1
    case FirstRelease => 2
    case HostChanged => 3
    case SizeDelta => 4
    case VersionUncomparable => 5
    case VersionNotHigher => 6
  }

  predicate InOrder(reasons: seq<Reason>) {
    forall i, j :: 0 <= i < j < |reasons| ==> Rank(reasons[i]) < Rank(reasons[j])
  }

  /** In the order of the list above, none of them twice. */
  lemma ReasonsAreInOrder(lib: Lib, prev: Previous, trust: Trust, sub: Submission, fetch: Fetch)
    ensures InOrder(Decide(lib, prev, trust, sub, fetch).reasons)
  {
    hide Compare, SizeChangedSharply, ArtifactReasons, ChangeReasons, Rank, InOrder;
    var order := Compare(prev.version, sub.version);
    var a, b := ArtifactReasons(fetch, Verified(sub, fetch)), ChangeReasons(lib, prev, sub, fetch, order);
    ArtifactReasonsRanked(fetch, Verified(sub, fetch));
    ChangeReasonsRanked(lib, prev, sub, fetch, order);
    OrderedAppend(a, b);
    OrderedAppend(a, [FirstRelease]);
    FirstReleaseRanked();
  }

  lemma FirstReleaseRanked()
    ensures Rank(FirstRelease) == 2 && InOrder([FirstRelease])
  {
  }

  lemma ArtifactReasonsRanked(fetch: Fetch, verified: bool)
    ensures InOrder(ArtifactReasons(fetch, verified))
    ensures forall i :: 0 <= i < |ArtifactReasons(fetch, verified)| ==> Rank(ArtifactReasons(fetch, verified)[i]) < 2
  {
  }

  lemma ChangeReasonsRanked(lib: Lib, prev: Previous, sub: Submission, fetch: Fetch, order: VersionOrder)
    ensures InOrder(ChangeReasons(lib, prev, sub, fetch, order))
    ensures forall i :: 0 <= i < |ChangeReasons(lib, prev, sub, fetch, order)| ==> 2 <= Rank(ChangeReasons(lib, prev, sub, fetch, order)[i])
  {
    hide SizeChangedSharply;
  }

  lemma OrderedAppend(a: seq<Reason>, b: seq<Reason>)
    requires InOrder(a) && forall i :: 0 <= i < |a| ==> Rank(a[i]) < 2
    ensures InOrder(b) && (forall i :: 0 <= i < |b| ==> 2 <= Rank(b[i])) ==> InOrder(a + b)
  {
    hide Rank;
  }

  /** What else a verdict says: whether the digests agreed, the version it was compared with, and the
      note, which names the reasons and the fetch's own failure. */
  lemma VerdictSays(lib: Lib, prev: Previous, trust: Trust, sub: Submission, fetch: Fetch)
    ensures var v := Decide(lib, prev, trust, sub, fetch);
            && (v.verified <==> fetch.Fetched? && sub.submitted != "" && fetch.computed.digest == sub.submitted)
            && v.fetch == fetch && v.comparedAgainst == prev.version && (v.state == Approved || v.state == Pending)
            && v.review == (if v.state == Approved then AutoPublished
                            else if v.reasons == [] then AwaitingHuman
                            else Quarantined(v.reasons, if fetch.FetchFailed? then fetch.reason else ""))
  {
    hide Reasons;
  }

  // ---- the reads made before the fetch ----

  function PreviousOf(rs: seq<Release>, plugin: string): Previous {
    match LiveRow(rs, plugin)
    case None => NO_PREVIOUS
    case Some(i) => Previous(true, rs[i].version, rs[i].url, rs[i].bytes)
  }

  /** Answers a key seen before: the release it produced, or the refusal of a reused key. */
  function SeenKey(db: Db, req: Request): Option<Result<string, Error>> {
    if (req.account, req.key) !in db.keys then None
    else if db.keys[(req.account, req.key)].requestHash != req.hash then Some(Err(IdempotencyKeyReused))
    else Some(Ok(db.keys[(req.account, req.key)].release))
  }

  /** outcomeOf: the row as it is now. */
  function OutcomeOf(rs: seq<Release>, id: string): Result<Outcome, Error> {
    match RowWithId(rs, id)
    case None => Err(NoSuchRelease)
    case Some(i) =>
      Ok(Outcome(id, rs[i].state, rs[i].verifiedAt.Some?, rs[i].sha256, rs[i].bytes, rs[i].note, true, None, [], []))
  }

  predicate HoldsGrant(db: Db, plugin: string, account: string) {
    (plugin, account) in db.grants
  }

  predicate CanPublish(db: Db, account: string) {
    account in db.accounts && db.accounts[account].canPublish
  }

  // ---- record ----

  /** A tier that has dropped since sends an automatic publish to review. One that has risen does nothing. */
  function Narrow(v: Verdict, trustNow: Trust): Verdict {
    if v.state == Approved && trustNow != Trusted then v.(state := Pending, review := TrustLowered) else v
  }

  function ComputedOf(v: Verdict): Option<Computed> {
    if v.fetch.Fetched? then Some(v.fetch.computed) else None
  }

  /** releaseParams. */
  function PublishRow(req: Request, v: Verdict, id: string, now: int): Release {
    var s := req.sub;
    var c := ComputedOf(v);
    Release(id, s.plugin, s.version, v.state, Published, s.url,
            if c.Some? then Some(c.value.digest) else None,
            if c.Some? then Some(c.value.bytes) else None,
            s.sdk, s.minApp, if s.notes == "" then None else Some(s.notes),
            Some(req.account), now, if c.Some? then Some(c.value.at) else None,
            None, None, Some(v.review))
  }

  /** `s` is a row that says what was submitted and what was computed. The claimed digest is not in it. */
  predicate RowSays(s: Release, req: Request, fetch: Fetch, id: string, now: int) {
    && s.id == id && s.plugin == req.sub.plugin && s.version == req.sub.version && s.source == Published
    && s.url == req.sub.url && s.sdk == req.sub.sdk && s.minApp == req.sub.minApp
    && s.notes == (if req.sub.notes == "" then None else Some(req.sub.notes))
    && s.submittedBy == Some(req.account) && s.submittedAt == now && s.reviewedBy == None && s.reviewedAt == None
    && (match fetch
        case FetchFailed(_) => s.sha256 == None && s.bytes == None && s.verifiedAt == None
        case Fetched(c) => s.sha256 == Some(c.digest) && s.bytes == Some(c.bytes) && s.verifiedAt == Some(c.at))
  }

  lemma PublishRowSays(req: Request, v: Verdict, id: string, now: int)
    ensures RowSays(PublishRow(req, v, id, now), req, v.fetch, id, now)
    ensures PublishRow(req, v, id, now).state == v.state && PublishRow(req, v, id, now).note == Some(v.review)
  {
  }

  /** The checks the transaction makes before it writes anything, against a narrowed verdict. */
  function RecordRefusal(db: Db, req: Request, v: Verdict): Option<Error> {
    var plugin := req.sub.plugin;
    var live := LiveRow(db.releases, plugin);
    if !HoldsGrant(db, plugin, req.account) then Some(NotPublishable)
    else if TrustOf(db.trust, req.account) == Blocked then Some(AccountBlocked)
    else match SeenKey(db, req)
      case Some(Err(e)) => Some(e)
      case Some(Ok(r)) => Some(Raced(r))
      case None =>
        if RowWithVersion(db.releases, plugin, req.sub.version).Some? then Some(VersionExists)
        else if v.state == Approved && (live.None? || db.releases[live.value].version != v.comparedAgainst)
        then Some(LiveReleaseChanged)
        else None
  }

  /** The release table just before the insert. */
  function Retired(rs: seq<Release>, plugin: string, v: Verdict): (r: seq<Release>)
    ensures |r| == |rs|
  {
    var retired := if v.state == Approved then SupersedeWhere(rs, plugin, Approved) else rs;
    SupersedeWhere(retired, plugin, Pending)
  }

  function Ids(rs: seq<Release>): (r: seq<string>)
    ensures |r| == |rs|
    ensures forall i :: 0 <= i < |rs| ==> r[i] == rs[i].id
  {
    seq(|rs|, i requires 0 <= i < |rs| => rs[i].id)
  }

  function RetireEntry(req: Request, w: Release): Entry {
    Entry(ByAccount(req.account), SupersedePendingEvent(w.id, req.sub.plugin, w.version, req.sub.version))
  }

  function RetireEntries(req: Request, waiting: seq<Release>): (r: seq<Entry>)
    ensures |r| == |waiting|
    ensures forall i :: 0 <= i < |waiting| ==> r[i] == RetireEntry(req, waiting[i])
  {
    seq(|waiting|, i requires 0 <= i < |waiting| => RetireEntry(req, waiting[i]))
  }

  function SupersededBy(db: Db, plugin: string, v: Verdict): Option<string> {
    if v.state == Approved && LiveRow(db.releases, plugin).Some?
    then Some(db.releases[LiveRow(db.releases, plugin).value].id) else None
  }

  function PublishEntry(db: Db, req: Request, v: Verdict, id: string): Entry {
    var plugin := req.sub.plugin;
    Entry(ByAccount(req.account),
          PublishEvent(plugin, id, req.sub.version, v.state, v.verified, v.reasons,
                       SupersededBy(db, plugin, v), Ids(Waiting(db.releases, plugin))))
  }

  /** The database after a commit. */
  function Recorded(db: Db, req: Request, v: Verdict, id: string, now: int): Db {
    var plugin := req.sub.plugin;
    db.(releases := Retired(db.releases, plugin, v) + [PublishRow(req, v, id, now)],
        keys := db.keys[(req.account, req.key) := KeyRow(req.hash, id)],
        audit := db.audit + RetireEntries(req, Waiting(db.releases, plugin)) + [PublishEntry(db, req, v, id)])
  }

  function RecordedOutcome(db: Db, req: Request, v: Verdict, id: string): Outcome {
    var c := ComputedOf(v);
    Outcome(id, v.state, v.verified,
            if c.Some? then Some(c.value.digest) else None, if c.Some? then Some(c.value.bytes) else None,
            Some(v.review), false, SupersededBy(db, req.sub.plugin, v),
            Ids(Waiting(db.releases, req.sub.plugin)), v.reasons)
  }

  /** The transaction: either everything is written, or nothing is and the error says why. */
  function RecordTx(db: Db, req: Request, verdict: Verdict, id: string, now: int): (Db, Result<Outcome, Error>) {
    var v := Narrow(verdict, TrustOf(db.trust, req.account));
    match RecordRefusal(db, req, v)
    case Some(e) => (db, Err(e))
    case None => Written(db, req, v, id, now)
  }

  /** What the inserts that end the transaction can be refused for. */
  function InsertProblem(accounts: map<string, Account>, plugins: map<string, Plugin>, rs: seq<Release>, req: Request,
                         row: Release): Option<Error> {
    if !InsertAdmitted(accounts, plugins, rs, row) || !KeyAdmitted(accounts, rs + [row], req.account, req.key, KeyRow(req.hash, row.id))
    then Some(ConstraintViolated)
    else ActorProblem(accounts, ByAccount(req.account))
  }

  /** What the rows about the retired releases can be refused for. */
  function RetireProblem(db: Db, req: Request): Option<Error> {
    if Waiting(db.releases, req.sub.plugin) == [] then None else ActorProblem(db.accounts, ByAccount(req.account))
  }

  /** What the writes come to once every check has passed. */
  function Written(db: Db, req: Request, v: Verdict, id: string, now: int): (Db, Result<Outcome, Error>) {
    match RetireProblem(db, req)
    case Some(e) => (db, Err(e))
    case None =>
      match InsertProblem(db.accounts, db.plugins, Retired(db.releases, req.sub.plugin, v), req, PublishRow(req, v, id, now))
      case Some(e) => (db, Err(e))
      case None => (Recorded(db, req, v, id, now), Ok(RecordedOutcome(db, req, v, id)))
  }

  /** A transaction that lost the race for its key is answered with the winner's release. */
  function Settled(tx: (Db, Result<Outcome, Error>)): (Db, Result<Outcome, Error>) {
    if tx.1.Err? && tx.1.error.Raced? then (tx.0, OutcomeOf(tx.0.releases, tx.1.error.release)) else tx
  }

  method Record(store: Store, req: Request, verdict: Verdict, id: string, now: int)
    returns (r: Result<Outcome, Error>)
    modifies store
    ensures (store.Contents(), r) == Settled(RecordTx(old(store.Contents()), req, verdict, id, now))
  {
    hide RecordTx, OutcomeOf;
    r := CommitRecord(store, req, verdict, id, now);
    if r.Err? && r.error.Raced? {
      r := OutcomeOf(store.releases, r.error.release);
    }
  }

  method CommitRecord(store: Store, req: Request, verdict: Verdict, id: string, now: int)
    returns (r: Result<Outcome, Error>)
    modifies store
    ensures (store.Contents(), r) == RecordTx(old(store.Contents()), req, verdict, id, now)
  {
    var begun := store.Contents();
    r := RecordBody(store, req, verdict, id, now);
    if r.Err? {
      store.Rollback(begun);
    }
  }

  /** The callback of the transaction. What it leaves behind when it fails is rolled back. */
  method RecordBody(store: Store, req: Request, verdict: Verdict, id: string, now: int)
    returns (r: Result<Outcome, Error>)
    modifies store
    ensures var tx := RecordTx(old(store.Contents()), req, verdict, id, now);
            r == tx.1 && (r.Ok? ==> store.Contents() == tx.0)
  {
    var v := verdict;
    var trustNow := TrustOf(store.trust, req.account);
    if !HoldsGrant(store.Contents(), req.sub.plugin, req.account) {
      return Err(NotPublishable);
    }
    if trustNow == Blocked {
      return Err(AccountBlocked);
    }
    if v.state == Approved && trustNow != Trusted {
      v := v.(state := Pending, review := TrustLowered);
    }
    match SeenKey(store.Contents(), req) {
      case Some(Err(e)) => return Err(e);
      case Some(Ok(existing)) => return Err(Raced(existing));
      case None =>
    }
    if RowWithVersion(store.releases, req.sub.plugin, req.sub.version).Some? {
      return Err(VersionExists);
    }
    if v.state == Approved {
      var live := LiveRow(store.releases, req.sub.plugin);
      if live.None? || store.releases[live.value].version != v.comparedAgainst {
        return Err(LiveReleaseChanged);
      }
    }
    r := WriteRelease(store, req, v, id, now);
  }

  /** The writes: retire the live release if this one replaces it, retire what is waiting, insert the
      release and its key, and record the publish. */
  method WriteRelease(store: Store, req: Request, v: Verdict, id: string, now: int)
    returns (r: Result<Outcome, Error>)
    requires (req.account, req.key) !in store.keys
    requires v.state == Approved ==> LiveRow(store.releases, req.sub.plugin).Some?
    modifies store
    ensures r == Written(old(store.Contents()), req, v, id, now).1
    ensures r.Ok? ==> store.Contents() == Written(old(store.Contents()), req, v, id, now).0
    ensures r.Ok? ==> store.releases != [] && RowSays(store.releases[|store.releases| - 1], req, v.fetch, id, now)
  {
    PublishRowSays(req, v, id, now);
    hide LiveRow, Waiting, RetireEntries, Retired, RowChecks, InsertAdmitted, SupersededBy;
    ghost var before := store.Contents();
    var superseded, waiting, problem := RetireOthers(store, req, v);
    if problem.Some? {
      return Err(problem.value);
    }
    var c := ComputedOf(v);
    var out := Outcome(id, v.state, v.verified,
                       if c.Some? then Some(c.value.digest) else None, if c.Some? then Some(c.value.bytes) else None,
                       Some(v.review), false, superseded, waiting, v.reasons);
    var event := PublishEvent(req.sub.plugin, id, req.sub.version, v.state, v.verified, v.reasons, superseded, waiting);
    var error := InsertAll(store, req, PublishRow(req, v, id, now), event);
    r := if error.Some? then Err(error.value) else Ok(out);
  }

  /** Retires the live release, when this one replaces it, and whatever is waiting. */
  method RetireOthers(store: Store, req: Request, v: Verdict)
    returns (superseded: Option<string>, waiting: seq<string>, error: Option<Error>)
    requires v.state == Approved ==> LiveRow(store.releases, req.sub.plugin).Some?
    modifies store`releases, store`audit
    ensures superseded == SupersededBy(old(store.Contents()), req.sub.plugin, v)
    ensures waiting == Ids(Waiting(old(store.releases), req.sub.plugin))
    ensures error == RetireProblem(old(store.Contents()), req)
    ensures error.None? ==> store.releases == Retired(old(store.releases), req.sub.plugin, v)
    ensures error.None? ==> store.audit == old(store.audit) + RetireEntries(req, Waiting(old(store.releases), req.sub.plugin))
  {
    superseded := None;
    SupersedeKeepsWaiting(store.releases, req.sub.plugin);
    if v.state == Approved {
      superseded := Some(store.releases[LiveRow(store.releases, req.sub.plugin).value].id);
      store.Supersede(req.sub.plugin, Approved);
    }
    var rows := Waiting(store.releases, req.sub.plugin);
    waiting := Ids(rows);
    error := RetireWaitingReleases(store, req, rows);
  }

  /** The three inserts that end the transaction. */
  method InsertAll(store: Store, req: Request, row: Release, event: Event) returns (error: Option<Error>)
    requires (req.account, req.key) !in store.keys
    modifies store`releases, store`keys, store`audit
    ensures error == InsertProblem(store.accounts, store.plugins, old(store.releases), req, row)
    ensures error.None? ==>
              && store.releases == old(store.releases) + [row]
              && store.keys == old(store.keys)[(req.account, req.key) := KeyRow(req.hash, row.id)]
              && store.audit == old(store.audit) + [Entry(ByAccount(req.account), event)]
  {
    var ok := store.InsertRelease(row);
    if !ok {
      return Some(ConstraintViolated);
    }
    ok := store.InsertIdempotencyKey(req.account, req.key, KeyRow(req.hash, row.id));
    if !ok {
      return Some(ConstraintViolated);
    }
    error := store.Record(ByAccount(req.account), event);
  }

  /** Retiring the live release does not change what is waiting. */
  lemma {:induction false} SupersedeKeepsWaiting(rs: seq<Release>, plugin: string)
    ensures Waiting(SupersedeWhere(rs, plugin, Approved), plugin) == Waiting(rs, plugin)
  {
    if rs != [] {
      var init := rs[..|rs| - 1];
      SupersedeKeepsWaiting(init, plugin);
      assert SupersedeWhere(rs, plugin, Approved)[..|rs| - 1] == SupersedeWhere(init, plugin, Approved);
    }
  }

  /** Supersedes whatever of this plugin was waiting, with one audit row against each. */
  method RetireWaitingReleases(store: Store, req: Request, waiting: seq<Release>) returns (error: Option<Error>)
    requires waiting == Waiting(store.releases, req.sub.plugin)
    modifies store`releases, store`audit
    ensures error == if waiting == [] then None else ActorProblem(store.accounts, ByAccount(req.account))
    ensures error.None? ==> store.releases == SupersedeWhere(old(store.releases), req.sub.plugin, Pending)
    ensures error.None? ==> store.audit == old(store.audit) + RetireEntries(req, waiting)
  {
    if waiting == [] {
      NoneWaiting(store.releases, req.sub.plugin);
      return None;
    }
    store.Supersede(req.sub.plugin, Pending);
    error := RecordRetirements(store, req, waiting);
  }

  method RecordRetirements(store: Store, req: Request, waiting: seq<Release>) returns (error: Option<Error>)
    modifies store`audit
    ensures error == if waiting == [] then None else ActorProblem(store.accounts, ByAccount(req.account))
    ensures error.None? ==> store.audit == old(store.audit) + RetireEntries(req, waiting)
  {
    for i := 0 to |waiting|
      invariant store.audit == old(store.audit) + RetireEntries(req, waiting[..i])
      invariant i > 0 ==> ActorProblem(store.accounts, ByAccount(req.account)).None?
    {
      var e := RetireEntry(req, waiting[i]);
      error := store.Record(e.actor, e.event);
      if error.Some? {
        return;
      }
      assert RetireEntries(req, waiting[..i + 1]) == RetireEntries(req, waiting[..i]) + [e];
    }
    assert waiting[..|waiting|] == waiting;
    error := None;
  }

  lemma NoneWaiting(rs: seq<Release>, plugin: string)
    requires Waiting(rs, plugin) == []
    ensures SupersedeWhere(rs, plugin, Pending) == rs
  {
    forall i | 0 <= i < |rs|
      ensures SupersedeRow(rs[i], plugin, Pending) == rs[i]
    {
      assert rs[i] in rs;
      assert rs[i] !in Waiting(rs, plugin);
    }
  }

  // ---- Publish, run with nothing in between ----

  /** What one call does to a database that nobody else touches while it runs. */
  ghost function PublishAlone(lib: Lib, db: Db, req: Request, fetch: Fetch, id: string, now: int)
    : (Db, Result<Outcome, Error>)
  {
    if req.key == "" then (db, Err(NoIdempotencyKey))
    else match SeenKey(db, req)
      case Some(Err(e)) => (db, Err(e))
      case Some(Ok(r)) => (db, OutcomeOf(db.releases, r))
      case None =>
        var trust := TrustOf(db.trust, req.account);
        if !HoldsGrant(db, req.sub.plugin, req.account) then (db, Err(NotPublishable))
        else if !CanPublish(db, req.account) then (db, Err(GitHubIdentityRequired))
        else if RowWithVersion(db.releases, req.sub.plugin, req.sub.version).Some? then (db, Err(VersionExists))
        else if trust == Blocked then (db, Err(AccountBlocked))
        else
          RecordTx(db, req, Decide(lib, PreviousOf(db.releases, req.sub.plugin), trust, req.sub, fetch), id, now)
  }

  /** A key that is free when the transaction looks is raced by nobody, and an error writes nothing. */
  lemma NotRaced(db: Db, req: Request, verdict: Verdict, id: string, now: int)
    requires SeenKey(db, req).None?
    ensures var tx := RecordTx(db, req, verdict, id, now); tx.1.Err? ==> !tx.1.error.Raced? && tx.0 == db
  {
    hide RowWithVersion, LiveRow, InsertAdmitted, Retired, Waiting, Recorded, RecordedOutcome;
  }

  method Publish(store: Store, lib: Lib, sub: Submission, account: string, rawKey: string,
                 fetch: Fetch, id: string, now: int) returns (r: Result<Outcome, Error>)
    modifies store
    ensures var req := Request(sub, account, TrimSpace(rawKey), HashRequest(lib, sub));
            (store.Contents(), r) == PublishAlone(lib, old(store.Contents()), req, fetch, id, now)
  {
    hide Decide, RecordTx, OutcomeOf, PreviousOf, HashRequest;
    var req := Request(sub, account, TrimSpace(rawKey), HashRequest(lib, sub));
    if req.key == "" {
      return Err(NoIdempotencyKey);
    }
    match SeenKey(store.Contents(), req) {
      case Some(Err(e)) => return Err(e);
      case Some(Ok(existing)) => return OutcomeOf(store.releases, existing);
      case None =>
    }
    if !HoldsGrant(store.Contents(), sub.plugin, account) {
      return Err(NotPublishable);
    }
    if !CanPublish(store.Contents(), account) {
      return Err(GitHubIdentityRequired);
    }
    if RowWithVersion(store.releases, sub.plugin, sub.version).Some? {
      return Err(VersionExists);
    }
    var trust := TrustOf(store.trust, account);
    if trust == Blocked {
      return Err(AccountBlocked);
    }
    var prev := PreviousOf(store.releases, sub.plugin);
    var verdict := DecideRelease(lib, prev, trust, sub, fetch);
    NotRaced(store.Contents(), req, verdict, id, now);
    r := Record(store, req, verdict, id, now);
  }
}
