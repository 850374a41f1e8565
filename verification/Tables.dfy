/** The database: its tables as a value, the meaning of each statement that changes them, and the
    store object whose transactions run those statements. */
module Tables {
  import opened Basics
  import opened Notes
  import opened Submissions

  datatype ReleaseState = Pending | Approved | Rejected | Superseded

  datatype Source = Published | Imported

  datatype Trust = Blocked | New | Trusted

  datatype Role = Owner | Maintainer

  /** The quarantine rules, in the order a reviewer reads them. */
  datatype Reason =
    | NotVerified
    | HashMismatch
    | FirstRelease
    | HostChanged
    | SizeDelta
    | VersionUncomparable
    | VersionNotHigher

  /** What review_note holds. Each sentence the service writes is a constructor of its own. */
  datatype ReviewNote =
    | ImportNote
    | AwaitingHuman
    | AutoPublished
    | TrustLowered
    | Quarantined(reasons: seq<Reason>, fetchFailure: string)
    | ReverifiedNote
    | ByReviewer(text: string)

  datatype Release = Release(
    id: string, plugin: string, version: string, state: ReleaseState, source: Source,
    url: string, sha256: Option<string>, bytes: Option<int>,
    sdk: string, minApp: Option<string>, notes: Option<string>,
    submittedBy: Option<string>, submittedAt: int, verifiedAt: Option<int>,
    reviewedBy: Option<string>, reviewedAt: Option<int>, note: Option<ReviewNote>)

  datatype Plugin = Plugin(
    name: string, description: string, author: string, homepage: string,
    delistedAt: Option<int>, delistedReason: Option<string>)

  datatype Account = Account(handle: string, disabled: bool, canPublish: bool)

  datatype KeyRow = KeyRow(requestHash: string, release: string)

  // ---- the audit log ----

  datatype Actor = ByAccount(account: string) | BySystem

  datatype Event =
    | PublishEvent(plugin: string, release: string, version: string, state: ReleaseState, verified: bool,
                   reasons: seq<Reason>, superseded: Option<string>, supersededPending: seq<string>)
    | SupersedePendingEvent(release: string, plugin: string, version: string, supersededBy: string)
    | ApproveEvent(release: string, plugin: string, version: string, sha256: string,
                   superseded: Option<string>, note: string)
    | RejectEvent(release: string, plugin: string, version: string, reason: string)
    | ReverifyEvent(release: string, plugin: string, version: string, computed: Option<string>, failure: Option<string>)
    | TrustEvent(subject: string, from: Trust, to: Trust, reason: string)
    | ClaimEvent(plugin: string, name: string)
    | OwnerAddEvent(plugin: string, subject: string, role: Role)
    | OwnerRemoveEvent(plugin: string, subject: string)
    | OwnerImportEvent(plugin: string, subject: string)
    | DelistEvent(plugin: string, reason: string, delistedVersion: string)
    | RelistEvent(plugin: string, reason: string, wasDelistedBecause: string)
    | CatalogueImportEvent(plugins: nat)

  datatype Entry = Entry(actor: Actor, event: Event)

  datatype Db = Db(
    accounts: map<string, Account>,
    plugins: map<string, Plugin>,
    releases: seq<Release>,
    keys: map<(string, string), KeyRow>,      // (account, idempotency key)
    grants: map<(string, string), Role>,      // (plugin, account)
    trust: map<string, Trust>,
    audit: seq<Entry>)

  const EMPTY_DB := Db(map[], map[], [], map[], map[], map[], [])

  datatype Error =
    | NoIdempotencyKey | NotPublishable | GitHubIdentityRequired | AccountBlocked | VersionExists
    | IdempotencyKeyReused | LiveReleaseChanged | Raced(release: string)
    | NoSuchRelease | NotPending | NoReason | ReasonTooLong | NotVerifiedYet | AlreadyVerified
    | NoTrustReason | NoSuchAccount
    | NotAnOwner | RoleCannotManageOwners | AlreadyAnOwner | LastOwner | AccountDisabled
    | AlreadyClaimed | BadListing
    | NoSuchPlugin | AlreadyDelisted | NotDelisted
    | InvalidSeed | BadSeedNotes
    | ActorMismatch
    | ConstraintViolated

  // ---- reading the release table ----

  /** The first row that satisfies `p`. */
  function FirstIndex(rs: seq<Release>, p: Release -> bool): (r: Option<nat>)
    ensures r.Some? ==> r.value < |rs| && p(rs[r.value])
    ensures r.None? ==> forall i :: 0 <= i < |rs| ==> !p(rs[i])
  {
    if rs == [] then None
    else if p(rs[0]) then Some(0)
    else match FirstIndex(rs[1..], p)
      case None => None
      case Some(i) => Some(i + 1)
  }

  /** GetReleaseByID. */
  function RowWithId(rs: seq<Release>, id: string): (r: Option<nat>)
    ensures r.Some? ==> r.value < |rs| && rs[r.value].id == id
    ensures r.None? ==> forall i :: 0 <= i < |rs| ==> rs[i].id != id
  {
    FirstIndex(rs, (r: Release) => r.id == id)
  }

  /** GetReleaseByVersion: has this plugin used the version, in any state? */
  function RowWithVersion(rs: seq<Release>, plugin: string, version: string): (r: Option<nat>)
    ensures r.Some? ==> r.value < |rs| && rs[r.value].plugin == plugin && rs[r.value].version == version
    ensures r.None? ==> forall i :: 0 <= i < |rs| ==> !(rs[i].plugin == plugin && rs[i].version == version)
  {
    FirstIndex(rs, (r: Release) => r.plugin == plugin && r.version == version)
  }

  /** GetLatestApprovedRelease. */
  function LiveRow(rs: seq<Release>, plugin: string): (r: Option<nat>)
    ensures r.Some? ==> r.value < |rs| && rs[r.value].plugin == plugin && rs[r.value].state == Approved
    ensures r.None? ==> forall i :: 0 <= i < |rs| ==> !(rs[i].plugin == plugin && rs[i].state == Approved)
  {
    FirstIndex(rs, (r: Release) => r.plugin == plugin && r.state == Approved)
  }

  function PendingRow(rs: seq<Release>, plugin: string): (r: Option<nat>)
    ensures r.Some? ==> r.value < |rs| && rs[r.value].plugin == plugin && rs[r.value].state == Pending
    ensures r.None? ==> forall i :: 0 <= i < |rs| ==> !(rs[i].plugin == plugin && rs[i].state == Pending)
  {
    FirstIndex(rs, (r: Release) => r.plugin == plugin && r.state == Pending)
  }

  /** ListPendingReleasesForPlugin. */
  function Waiting(rs: seq<Release>, plugin: string): (w: seq<Release>)
    ensures forall r :: r in w <==> r in rs && r.plugin == plugin && r.state == Pending
  {
    if rs == [] then []
    else
      assert rs == rs[..|rs| - 1] + [rs[|rs| - 1]];
      Waiting(rs[..|rs| - 1], plugin)
      + if rs[|rs| - 1].plugin == plugin && rs[|rs| - 1].state == Pending then [rs[|rs| - 1]] else []
  }

  function TrustOf(trust: map<string, Trust>, account: string): Trust {
    if account in trust then trust[account] else New
  }

  predicate PendingWith(rs: seq<Release>, id: string) {
    RowWithId(rs, id).Some? && rs[RowWithId(rs, id).value].state == Pending
  }

  /** Looking up an id only reads the ids. */
  lemma {:induction false} RowWithIdReadsIds(rs: seq<Release>, other: seq<Release>, id: string)
    requires |rs| == |other| && forall i :: 0 <= i < |rs| ==> rs[i].id == other[i].id
    ensures RowWithId(rs, id) == RowWithId(other, id)
  {
    if rs != [] && rs[0].id != id {
      RowWithIdReadsIds(rs[1..], other[1..], id);
    }
  }

  // ---- the statements that change it ----

  function SupersedeRow(r: Release, plugin: string, from: ReleaseState): Release {
    if r.plugin == plugin && r.state == from then r.(state := Superseded) else r
  }

  /** SupersedeApprovedRelease and SupersedePendingReleases. */
  function SupersedeWhere(rs: seq<Release>, plugin: string, from: ReleaseState): (r: seq<Release>)
    ensures |r| == |rs|
    ensures forall i :: 0 <= i < |rs| ==> r[i] == SupersedeRow(rs[i], plugin, from)
  {
    seq(|rs|, i requires 0 <= i < |rs| => SupersedeRow(rs[i], plugin, from))
  }

  datatype Review = Review(state: ReleaseState, reviewer: string, at: int, note: Option<ReviewNote>)

  function ReviewRow(r: Release, id: string, v: Review): Release {
    if r.id == id && r.state == Pending
    then r.(state := v.state, reviewedBy := Some(v.reviewer), reviewedAt := Some(v.at), note := v.note)
    else r
  }

  /** ApproveRelease and RejectRelease: only a row that is still pending. */
  function ReviewWhere(rs: seq<Release>, id: string, v: Review): (r: seq<Release>)
    ensures |r| == |rs|
    ensures forall i :: 0 <= i < |rs| ==> r[i] == ReviewRow(rs[i], id, v)
  {
    seq(|rs|, i requires 0 <= i < |rs| => ReviewRow(rs[i], id, v))
  }

  /** What a successful fetch computed. */
  datatype Computed = Computed(digest: string, bytes: int, at: int)

  function VerifyRow(r: Release, id: string, c: Computed): Release {
    if r.id == id && r.state == Pending && r.verifiedAt.None?
    then r.(sha256 := Some(c.digest), bytes := Some(c.bytes), verifiedAt := Some(c.at), note := Some(ReverifiedNote))
    else r
  }

  /** RecordReleaseVerification: only a blank, and only while pending. */
  function VerifyWhere(rs: seq<Release>, id: string, c: Computed): (r: seq<Release>)
    ensures |r| == |rs|
    ensures forall i :: 0 <= i < |rs| ==> r[i] == VerifyRow(rs[i], id, c)
  {
    seq(|rs|, i requires 0 <= i < |rs| => VerifyRow(rs[i], id, c))
  }

  // ---- the constraints of the schema ----

  /** SQL's length() of a text: the characters before the first NUL. */
  function SqlLength(s: string): nat {
    if s == "" || s[0] == '\0' then 0 else 1 + SqlLength(s[1..])
  }

  lemma SqlLengthOfNulFree(s: string)
    requires '\0' !in s
    ensures SqlLength(s) == |s|
  {
  }

  predicate AccountKnown(accounts: map<string, Account>, who: Option<string>) {
    who.Some? ==> who.value in accounts
  }

  /** The CHECKs a release row must satisfy. */
  predicate RowChecks(r: Release) {
    && SqlLength(r.version) > 0 && HasHttpsPrefix(r.url)
    && (r.sha256.Some? ==> IsDigestHex(r.sha256.value))
    && (r.bytes.Some? ==> r.bytes.value >= 0)
    && (r.notes.Some? ==> ByteLen(r.notes.value) <= MAX_RELEASE_NOTES_BYTES)
    && (r.state == Approved ==> r.sha256.Some?)
    && (r.sha256.Some? ==> r.source == Imported || r.verifiedAt.Some?)
  }

  /** Whether an INSERT of `r` satisfies the primary key, the unique indexes, the foreign keys and the
      CHECKs. */
  predicate InsertAdmitted(accounts: map<string, Account>, plugins: map<string, Plugin>, rs: seq<Release>, r: Release) {
    && r.plugin in plugins && AccountKnown(accounts, r.submittedBy) && AccountKnown(accounts, r.reviewedBy)
    && RowChecks(r)
    && RowWithId(rs, r.id).None?
    && RowWithVersion(rs, r.plugin, r.version).None?
    && (r.state == Approved ==> LiveRow(rs, r.plugin).None?)
    && (r.state == Pending ==> PendingRow(rs, r.plugin).None?)
  }

  /** Whether the UPDATE that approves row `id` satisfies the index, the foreign key and the CHECKs. */
  predicate ApproveAdmitted(accounts: map<string, Account>, rs: seq<Release>, id: string, reviewer: string) {
    PendingWith(rs, id) ==>
      var row := rs[RowWithId(rs, id).value];
      row.sha256.Some? && LiveRow(rs, row.plugin).None? && reviewer in accounts
  }

  predicate RejectAdmitted(accounts: map<string, Account>, rs: seq<Release>, id: string, reviewer: string) {
    PendingWith(rs, id) ==> reviewer in accounts
  }

  predicate KeyAdmitted(accounts: map<string, Account>, rs: seq<Release>, account: string, key: string, row: KeyRow) {
    && SqlLength(key) > 0 && IsDigestHex(row.requestHash)
    && account in accounts && RowWithId(rs, row.release).Some?
  }

  predicate GrantAdmitted(accounts: map<string, Account>, plugins: map<string, Plugin>, plugin: string, account: string,
                          grantedBy: Option<string>) {
    plugin in plugins && account in accounts && AccountKnown(accounts, grantedBy)
  }

  predicate PluginChecks(id: string, p: Plugin) {
    && 2 <= SqlLength(id) <= 40 && SqlLength(p.name) > 0
    && (p.delistedAt.Some? <==> p.delistedReason.Some?)
  }

  // ---- the store ----

  /** One database file. The methods are its statements, and each refuses what the schema refuses,
      leaving the table as it was. A transaction keeps `Contents()` from its start and puts it back with
      `Rollback` when it ends in an error: that is store.DB.Tx. */
  class Store {
    var accounts: map<string, Account>
    var plugins: map<string, Plugin>
    var releases: seq<Release>
    var keys: map<(string, string), KeyRow>
    var grants: map<(string, string), Role>
    var trust: map<string, Trust>
    var audit: seq<Entry>

    constructor ()
      ensures Contents() == EMPTY_DB
    {
      accounts, plugins, releases, keys, grants, trust, audit := map[], map[], [], map[], map[], map[], [];
    }

    function Contents(): Db
      reads this
    {
      Db(accounts, plugins, releases, keys, grants, trust, audit)
    }

    method Rollback(begun: Db)
      modifies this
      ensures Contents() == begun
    {
      accounts, plugins, releases, keys := begun.accounts, begun.plugins, begun.releases, begun.keys;
      grants, trust, audit := begun.grants, begun.trust, begun.audit;
    }

    method InsertRelease(r: Release) returns (ok: bool)
      modifies this`releases
      ensures ok == InsertAdmitted(accounts, plugins, old(releases), r)
      ensures releases == if ok then old(releases) + [r] else old(releases)
    {
      ok := InsertAdmitted(accounts, plugins, releases, r);
      if ok {
        releases := releases + [r];
      }
    }

    method Supersede(plugin: string, from: ReleaseState)
      modifies this`releases
      ensures releases == SupersedeWhere(old(releases), plugin, from)
    {
      releases := SupersedeWhere(releases, plugin, from);
    }

    /** `changed` is whether the affected-row count is not zero. The id is the primary key, so the
        row it names is the only one the WHERE clause can match. */
    method ApproveRelease(id: string, v: Review) returns (ok: bool, changed: bool)
      requires v.state == Approved
      modifies this`releases
      ensures ok == ApproveAdmitted(accounts, old(releases), id, v.reviewer)
      ensures changed == (ok && PendingWith(old(releases), id))
      ensures releases == if ok then ReviewWhere(old(releases), id, v) else old(releases)
    {
      ok := ApproveAdmitted(accounts, releases, id, v.reviewer);
      changed := ok && PendingWith(releases, id);
      if ok {
        releases := ReviewWhere(releases, id, v);
      }
    }

    method RejectRelease(id: string, v: Review) returns (ok: bool, changed: bool)
      requires v.state == Rejected
      modifies this`releases
      ensures ok == RejectAdmitted(accounts, old(releases), id, v.reviewer)
      ensures changed == (ok && PendingWith(old(releases), id))
      ensures releases == if ok then ReviewWhere(old(releases), id, v) else old(releases)
    {
      ok := RejectAdmitted(accounts, releases, id, v.reviewer);
      changed := ok && PendingWith(releases, id);
      if ok {
        releases := ReviewWhere(releases, id, v);
      }
    }

    method RecordReleaseVerification(id: string, c: Computed) returns (changed: bool)
      modifies this`releases
      ensures changed == (PendingWith(old(releases), id) && old(releases)[RowWithId(old(releases), id).value].verifiedAt.None?)
      ensures releases == VerifyWhere(old(releases), id, c)
    {
      changed := PendingWith(releases, id) && releases[RowWithId(releases, id).value].verifiedAt.None?;
      releases := VerifyWhere(releases, id, c);
    }

    method InsertIdempotencyKey(account: string, key: string, row: KeyRow) returns (ok: bool)
      modifies this`keys
      ensures ok == ((account, key) !in old(keys) && KeyAdmitted(accounts, releases, account, key, row))
      ensures keys == if ok then old(keys)[(account, key) := row] else old(keys)
    {
      ok := (account, key) !in keys && KeyAdmitted(accounts, releases, account, key, row);
      if ok {
        keys := keys[(account, key) := row];
      }
    }

    method InsertPlugin(id: string, p: Plugin) returns (ok: bool)
      modifies this`plugins
      ensures ok == (id !in old(plugins) && PluginChecks(id, p))
      ensures plugins == if ok then old(plugins)[id := p] else old(plugins)
    {
      ok := id !in plugins && PluginChecks(id, p);
      if ok {
        plugins := plugins[id := p];
      }
    }

    method DelistPlugin(id: string, at: int, reason: string) returns (changed: bool)
      modifies this`plugins
      ensures changed == (id in old(plugins) && old(plugins)[id].delistedAt.None?)
      ensures plugins == if changed then old(plugins)[id := old(plugins)[id].(delistedAt := Some(at), delistedReason := Some(reason))]
                         else old(plugins)
    {
      changed := id in plugins && plugins[id].delistedAt.None?;
      if changed {
        plugins := plugins[id := plugins[id].(delistedAt := Some(at), delistedReason := Some(reason))];
      }
    }

    method RelistPlugin(id: string) returns (changed: bool)
      modifies this`plugins
      ensures changed == (id in old(plugins) && old(plugins)[id].delistedAt.Some?)
      ensures plugins == if changed then old(plugins)[id := old(plugins)[id].(delistedAt := None, delistedReason := None)]
                         else old(plugins)
    {
      changed := id in plugins && plugins[id].delistedAt.Some?;
      if changed {
        plugins := plugins[id := plugins[id].(delistedAt := None, delistedReason := None)];
      }
    }

    method InsertPluginOwner(plugin: string, account: string, role: Role, grantedBy: Option<string>) returns (ok: bool)
      modifies this`grants
      ensures ok == ((plugin, account) !in old(grants) && GrantAdmitted(accounts, plugins, plugin, account, grantedBy))
      ensures grants == if ok then old(grants)[(plugin, account) := role] else old(grants)
    {
      ok := (plugin, account) !in grants && GrantAdmitted(accounts, plugins, plugin, account, grantedBy);
      if ok {
        grants := grants[(plugin, account) := role];
      }
    }

    method DeletePluginOwner(plugin: string, account: string) returns (removed: bool)
      modifies this`grants
      ensures removed == ((plugin, account) in old(grants))
      ensures grants == old(grants) - {(plugin, account)}
    {
      removed := (plugin, account) in grants;
      grants := grants - {(plugin, account)};
    }

    method SetAccountTrust(account: string, level: Trust, setBy: string) returns (ok: bool)
      modifies this`trust
      ensures ok == (account in accounts && setBy in accounts)
      ensures trust == if ok then old(trust)[account := level] else old(trust)
    {
      ok := account in accounts && setBy in accounts;
      if ok {
        trust := trust[account := level];
      }
    }

    /** audit.Record: appends one row, and refuses an account action that names no account. */
    method Record(actor: Actor, event: Event) returns (error: Option<Error>)
      modifies this`audit
      ensures error == ActorProblem(accounts, actor)
      ensures audit == if error.None? then old(audit) + [Entry(actor, event)] else old(audit)
    {
      error := ActorProblem(accounts, actor);
      if error.None? {
        audit := audit + [Entry(actor, event)];
      }
    }
  }

  /** What a row by `actor` is refused for: naming nobody, or an unknown account. */
  function ActorProblem(accounts: map<string, Account>, actor: Actor): Option<Error> {
    if actor.BySystem? then None
    else if actor.account == "" then Some(ActorMismatch)
    else if actor.account !in accounts then Some(ConstraintViolated)
    else None
  }
}
