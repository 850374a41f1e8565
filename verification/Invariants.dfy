/** What every reachable database keeps, one predicate per promise of the schema or the design, and
    what each kind of change to the release table does to them. */
module Invariants {
  import opened Basics
  import opened Notes
  import opened Submissions
  import opened Tables
  import opened Publishing
  import opened Catalogue

  // ---- the release table ----

  ghost predicate UniqueIds(rs: seq<Release>) {
    forall i, j :: 0 <= i < j < |rs| ==> rs[i].id != rs[j].id
  }

  /** One row per plugin and version, for ever. */
  ghost predicate UniqueVersions(rs: seq<Release>) {
    forall i, j :: 0 <= i < j < |rs| && rs[i].plugin == rs[j].plugin ==> rs[i].version != rs[j].version
  }

  /** A release that is waiting is the newest of its plugin. At most one is waiting, therefore. */
  ghost predicate PendingNewest(rs: seq<Release>) {
    forall i, j :: 0 <= i < j < |rs| && rs[i].plugin == rs[j].plugin ==> rs[i].state != Pending
  }

  /** Somebody or something answers for the release having been live. */
  predicate Accountable(r: Release) {
    r.source == Imported || r.reviewedBy.Some? || r.note == Some(AutoPublished)
  }

  /** The release is live or was. A submission retired while it waited never was. */
  predicate WentLive(r: Release) {
    r.state == Approved || (r.state == Superseded && Accountable(r))
  }

  /** It went live because a human approved it, here or in the registry it was imported from. */
  predicate HumanLive(r: Release) {
    WentLive(r) && (r.source == Imported || r.reviewedBy.Some?)
  }

  ghost predicate HasLive(rs: seq<Release>, plugin: string) {
    exists i :: 0 <= i < |rs| && rs[i].plugin == plugin && rs[i].state == Approved
  }

  /** Whatever once was live still has a live release. */
  ghost predicate LiveKept(rs: seq<Release>) {
    forall i :: 0 <= i < |rs| && WentLive(rs[i]) ==> HasLive(rs, rs[i].plugin)
  }

  ghost predicate RootedAt(rs: seq<Release>, i: nat, j: nat) {
    i < j < |rs| && rs[i].plugin == rs[j].plugin && HumanLive(rs[i])
  }

  /** Behind every automatic publish there is an earlier release of the plugin that a human let in. */
  ghost predicate AutoRooted(rs: seq<Release>) {
    forall j :: 0 <= j < |rs| && rs[j].note == Some(AutoPublished) ==> exists i: nat :: RootedAt(rs, i, j)
  }

  /** What the columns that decide a row's standing can be together. */
  predicate StateOk(r: Release) {
    && (r.state == Pending ==> r.source == Published && r.reviewedBy.None? && r.note != Some(AutoPublished))
    && (r.state == Approved ==> Accountable(r) && r.sha256.Some?)
    && (r.state == Rejected ==> r.source == Published && r.reviewedBy.Some? && r.note != Some(AutoPublished))
    && (r.source == Imported ==> r.reviewedBy.None? && r.note == Some(ImportNote) && r.verifiedAt.None? && r.bytes.None?)
    && (r.source == Published ==> (r.sha256.Some? <==> r.verifiedAt.Some?) && (r.bytes.Some? <==> r.verifiedAt.Some?))
    && (r.note == Some(AutoPublished) ==> r.source == Published && r.reviewedBy.None?)
    && (r.source == Published ==> r.submittedBy.Some?)
  }

  ghost predicate StatesOk(rs: seq<Release>) {
    forall i :: 0 <= i < |rs| ==> StateOk(rs[i])
  }

  /** The text and numbers of a row are ones the index can carry. */
  ghost predicate TextOk(version: string, url: string, sha256: Option<string>, bytes: Option<int>, notes: Option<string>) {
    && TrimSpace(version) != "" && SqlLength(version) > 0 && HasHttpsPrefix(url)
    && (sha256.Some? ==> IsDigestHex(sha256.value))
    && (bytes.Some? ==> 0 <= bytes.value <= MAX_ARTIFACT_BYTES)
    && (notes.Some? ==> notes.value != "" && StoredNotes(notes.value))
  }

  ghost predicate TextsOk(rs: seq<Release>) {
    forall i :: 0 <= i < |rs| ==> TextOk(rs[i].version, rs[i].url, rs[i].sha256, rs[i].bytes, rs[i].notes)
  }

  ghost predicate ForeignKeysOk(plugins: map<string, Plugin>, rs: seq<Release>) {
    forall i :: 0 <= i < |rs| ==> rs[i].plugin in plugins
  }

  /** Everything that concerns the release table alone. */
  ghost predicate TableOk(rs: seq<Release>) {
    && UniqueIds(rs) && UniqueVersions(rs) && OneApproved(rs) && PendingNewest(rs)
    && StatesOk(rs) && TextsOk(rs) && LiveKept(rs) && AutoRooted(rs)
  }

  // ---- how a row may change ----

  /** Which release this is never changes; a stored hash, size and verification time never change; no
      release becomes an automatic one; and once a release has left pending nothing changes but
      approved to superseded. */
  predicate RowEvolves(r: Release, s: Release) {
    && s.id == r.id && s.plugin == r.plugin && s.version == r.version && s.source == r.source
    && s.url == r.url && s.sdk == r.sdk && s.minApp == r.minApp && s.notes == r.notes
    && s.submittedBy == r.submittedBy && s.submittedAt == r.submittedAt
    && (r.sha256.Some? ==> s.sha256 == r.sha256)
    && (r.bytes.Some? ==> s.bytes == r.bytes)
    && (r.verifiedAt.Some? ==> s.verifiedAt == r.verifiedAt)
    && (s.note == Some(AutoPublished) ==> r.note == Some(AutoPublished))
    && (r.state != Pending ==> s == r.(state := s.state) && (s.state == r.state || (r.state == Approved && s.state == Superseded)))
  }

  ghost predicate RowsEvolve(rs: seq<Release>, ss: seq<Release>) {
    |rs| <= |ss| && forall i :: 0 <= i < |rs| ==> RowEvolves(rs[i], ss[i])
  }

  /** The live release of every plugin stays or is replaced by a row inserted later. */
  ghost predicate LiveAdvances(rs: seq<Release>, ss: seq<Release>) {
    forall i :: 0 <= i < |rs| && rs[i].state == Approved ==>
      exists j :: i <= j < |ss| && ss[j].plugin == rs[i].plugin && ss[j].state == Approved
  }

  lemma LiveAdvancesTransitive(rs: seq<Release>, ss: seq<Release>, ts: seq<Release>)
    requires LiveAdvances(rs, ss) && LiveAdvances(ss, ts)
    ensures LiveAdvances(rs, ts)
  {
    forall i | 0 <= i < |rs| && rs[i].state == Approved
      ensures exists k :: i <= k < |ts| && ts[k].plugin == rs[i].plugin && ts[k].state == Approved
    {
      var j :| i <= j < |ss| && ss[j].plugin == rs[i].plugin && ss[j].state == Approved;
      var k :| j <= k < |ts| && ts[k].plugin == ss[j].plugin && ts[k].state == Approved;
    }
  }

  // ---- a submission is recorded ----

  /** What becomes of an earlier row when `row` is recorded. */
  function AfterSubmission(r: Release, row: Release): Release {
    if r.plugin == row.plugin && (r.state == Pending || (r.state == Approved && row.state == Approved))
    then r.(state := Superseded) else r
  }

  /** `ss` is `rs` after this plugin's waiting rows, and its live one if the new row is approved,
      were retired and the new row was appended. */
  ghost predicate Submitted(rs: seq<Release>, ss: seq<Release>, row: Release) {
    && |ss| == |rs| + 1 && ss[|rs|] == row
    && forall i :: 0 <= i < |rs| ==> ss[i] == AfterSubmission(rs[i], row)
  }

  /** The row is new to its plugin, and automatic only over a live predecessor. */
  ghost predicate Submittable(rs: seq<Release>, row: Release) {
    && (forall i :: 0 <= i < |rs| ==> rs[i].id != row.id)
    && (forall i :: 0 <= i < |rs| && rs[i].plugin == row.plugin ==> rs[i].version != row.version)
    && row.state in {Pending, Approved} && StateOk(row) && row.source == Published
    && (row.state == Approved <==> row.note == Some(AutoPublished))
    && (row.state == Approved ==> HasLive(rs, row.plugin))
    && TextOk(row.version, row.url, row.sha256, row.bytes, row.notes)
  }

  lemma SubmittedKeepsUniqueness(rs: seq<Release>, ss: seq<Release>, row: Release)
    requires Submitted(rs, ss, row) && UniqueIds(rs) && UniqueVersions(rs)
    requires forall i :: 0 <= i < |rs| ==> rs[i].id != row.id
    requires forall i :: 0 <= i < |rs| && rs[i].plugin == row.plugin ==> rs[i].version != row.version
    ensures UniqueIds(ss) && UniqueVersions(ss)
  {
    forall i | 0 <= i < |rs|
      ensures ss[i].id == rs[i].id && ss[i].plugin == rs[i].plugin && ss[i].version == rs[i].version
    {
    }
  }

  lemma SubmittedKeepsPartialIndexes(rs: seq<Release>, ss: seq<Release>, row: Release)
    requires Submitted(rs, ss, row) && OneApproved(rs) && PendingNewest(rs)
    ensures OneApproved(ss) && PendingNewest(ss)
  {
    forall i | 0 <= i < |rs|
      ensures ss[i].plugin == rs[i].plugin
      ensures ss[i].state == Approved ==> rs[i].state == Approved && (rs[i].plugin == row.plugin ==> row.state != Approved)
      ensures ss[i].state == Pending ==> rs[i].state == Pending && rs[i].plugin != row.plugin
    {
    }
  }

  lemma SubmittedEvolves(rs: seq<Release>, ss: seq<Release>, row: Release)
    requires StatesOk(rs) && Submittable(rs, row) && Submitted(rs, ss, row)
    ensures RowsEvolve(rs, ss) && StatesOk(ss)
    ensures LiveAdvances(rs, ss)
  {
    forall i | 0 <= i < |rs| && rs[i].state == Approved
      ensures exists j :: i <= j < |ss| && ss[j].plugin == rs[i].plugin && ss[j].state == Approved
    {
      if ss[i].state != Approved {
        assert ss[|rs|].state == Approved;
      }
    }
  }

  lemma SubmittedKeepsTexts(rs: seq<Release>, ss: seq<Release>, row: Release)
    requires TextsOk(rs) && Submitted(rs, ss, row)
    requires TextOk(row.version, row.url, row.sha256, row.bytes, row.notes)
    ensures TextsOk(ss)
  {
  }

  /** Where rows only evolve and live releases advance, whoever went live still has a live release. */
  lemma LiveStaysKept(rs: seq<Release>, ss: seq<Release>)
    requires LiveKept(rs) && RowsEvolve(rs, ss) && LiveAdvances(rs, ss)
    requires forall i :: 0 <= i < |ss| && WentLive(ss[i]) ==> ss[i].state == Approved || (i < |rs| && WentLive(rs[i]))
    ensures LiveKept(ss)
  {
    forall i | 0 <= i < |ss| && WentLive(ss[i])
      ensures HasLive(ss, ss[i].plugin)
    {
      if ss[i].state != Approved {
        var k :| 0 <= k < |rs| && rs[k].plugin == rs[i].plugin && rs[k].state == Approved;
        var j :| k <= j < |ss| && ss[j].plugin == rs[k].plugin && ss[j].state == Approved;
      }
    }
  }

  /** A row that evolves and went live keeps having gone live. */
  lemma WentLiveStays(r: Release, s: Release)
    requires RowEvolves(r, s) && StateOk(r) && WentLive(r)
    ensures WentLive(s) && (HumanLive(r) ==> HumanLive(s))
  {
  }

  /** Old roots stay roots. */
  lemma RootsStay(rs: seq<Release>, ss: seq<Release>, j: nat)
    requires RowsEvolve(rs, ss) && StatesOk(rs) && j < |rs|
    requires exists i: nat :: RootedAt(rs, i, j)
    ensures exists i: nat :: RootedAt(ss, i, j)
  {
    var i: nat :| RootedAt(rs, i, j);
    WentLiveStays(rs[i], ss[i]);
    assert RootedAt(ss, i, j);
  }

  /** Somebody human stands at the beginning of every plugin's live releases. */
  lemma LiveHasRoot(rs: seq<Release>, k: nat)
    requires AutoRooted(rs) && StatesOk(rs) && k < |rs| && rs[k].state == Approved
    ensures exists i :: 0 <= i <= k && rs[i].plugin == rs[k].plugin && HumanLive(rs[i])
  {
    if rs[k].note == Some(AutoPublished) {
      var i: nat :| RootedAt(rs, i, k);
    }
  }

  lemma SubmittedKeepsRoots(rs: seq<Release>, ss: seq<Release>, row: Release)
    requires Submitted(rs, ss, row) && RowsEvolve(rs, ss) && StatesOk(rs) && AutoRooted(rs)
    requires row.note == Some(AutoPublished) ==> HasLive(rs, row.plugin)
    ensures AutoRooted(ss)
  {
    forall j | 0 <= j < |ss| && ss[j].note == Some(AutoPublished)
      ensures exists i: nat :: RootedAt(ss, i, j)
    {
      if j < |rs| {
        assert rs[j].note == ss[j].note;
        RootsStay(rs, ss, j);
      } else {
        var k :| 0 <= k < |rs| && rs[k].plugin == row.plugin && rs[k].state == Approved;
        LiveHasRoot(rs, k);
        var i: nat :| 0 <= i <= k && rs[i].plugin == rs[k].plugin && HumanLive(rs[i]);
        WentLiveStays(rs[i], ss[i]);
        assert RootedAt(ss, i, j);
      }
    }
  }

  lemma SubmittedKeepsLive(rs: seq<Release>, ss: seq<Release>, row: Release)
    requires Submitted(rs, ss, row) && RowsEvolve(rs, ss) && LiveAdvances(rs, ss) && StatesOk(rs) && LiveKept(rs)
    requires row.state in {Pending, Approved}
    ensures LiveKept(ss)
  {
    forall i | 0 <= i < |ss| && WentLive(ss[i])
      ensures ss[i].state == Approved || (i < |rs| && WentLive(rs[i]))
    {
      if i < |rs| && ss[i].state != Approved {
        assert StateOk(rs[i]);
      }
    }
    LiveStaysKept(rs, ss);
  }

  lemma SubmittedKeepsTable(rs: seq<Release>, ss: seq<Release>, row: Release)
    requires TableOk(rs) && Submittable(rs, row) && Submitted(rs, ss, row)
    ensures TableOk(ss) && RowsEvolve(rs, ss) && LiveAdvances(rs, ss)
  {
    SubmittedKeepsUniqueness(rs, ss, row);
    SubmittedKeepsPartialIndexes(rs, ss, row);
    SubmittedKeepsTexts(rs, ss, row);
    SubmittedEvolves(rs, ss, row);
    SubmittedKeepsRoots(rs, ss, row);
    SubmittedKeepsLive(rs, ss, row);
  }

  // ---- a reviewer decides, or a fetch fills a blank ----

  /** What becomes of another row when a pending row becomes `s`. */
  function AfterDecision(r: Release, s: Release): Release {
    if r.plugin == s.plugin && r.state == Approved && s.state == Approved then r.(state := Superseded) else r
  }

  /** `ss` is `rs` with the pending row `k` changed to `s`; when `s` is approved the plugin's live
      row is retired. */
  ghost predicate Decided(rs: seq<Release>, ss: seq<Release>, k: nat, s: Release) {
    && k < |rs| == |ss| && ss[k] == s && rs[k].state == Pending
    && forall i :: 0 <= i < |rs| && i != k ==> ss[i] == AfterDecision(rs[i], s)
  }

  /** What a waiting row can become here. */
  ghost predicate Decides(r: Release, s: Release) {
    && RowEvolves(r, s) && StateOk(s) && s.note != Some(AutoPublished) && s.state != Superseded
    && TextOk(s.version, s.url, s.sha256, s.bytes, s.notes)
  }

  lemma DecidedKeepsUniqueness(rs: seq<Release>, ss: seq<Release>, k: nat, s: Release)
    requires Decided(rs, ss, k, s) && Decides(rs[k], s) && UniqueIds(rs) && UniqueVersions(rs)
    ensures UniqueIds(ss) && UniqueVersions(ss)
  {
    forall i | 0 <= i < |rs|
      ensures ss[i].id == rs[i].id && ss[i].plugin == rs[i].plugin && ss[i].version == rs[i].version
    {
    }
  }

  lemma DecidedKeepsPartialIndexes(rs: seq<Release>, ss: seq<Release>, k: nat, s: Release)
    requires Decided(rs, ss, k, s) && Decides(rs[k], s) && OneApproved(rs) && PendingNewest(rs)
    ensures OneApproved(ss) && PendingNewest(ss)
  {
    forall i | 0 <= i < |rs|
      ensures ss[i].plugin == rs[i].plugin
      ensures i != k && ss[i].state == Approved ==> rs[i].state == Approved && (rs[i].plugin == s.plugin ==> s.state != Approved)
      ensures ss[i].state == Pending ==> rs[i].state == Pending
    {
    }
  }

  lemma DecidedEvolves(rs: seq<Release>, ss: seq<Release>, k: nat, s: Release)
    requires Decided(rs, ss, k, s) && Decides(rs[k], s) && StatesOk(rs)
    ensures RowsEvolve(rs, ss) && StatesOk(ss)
  {
  }

  lemma DecidedKeepsTexts(rs: seq<Release>, ss: seq<Release>, k: nat, s: Release)
    requires Decided(rs, ss, k, s) && Decides(rs[k], s) && TextsOk(rs)
    ensures TextsOk(ss)
  {
  }

  /** The row a reviewer approves was inserted after the one it replaces. */
  lemma DecidedAdvances(rs: seq<Release>, ss: seq<Release>, k: nat, s: Release)
    requires Decided(rs, ss, k, s) && Decides(rs[k], s) && PendingNewest(rs)
    ensures LiveAdvances(rs, ss)
  {
    forall i | 0 <= i < |rs| && rs[i].state == Approved
      ensures exists j :: i <= j < |ss| && ss[j].plugin == rs[i].plugin && ss[j].state == Approved
    {
      if ss[i].state != Approved {
        assert ss[k].state == Approved && ss[k].plugin == rs[i].plugin;
        assert i < k;
      }
    }
  }

  lemma DecidedKeepsLive(rs: seq<Release>, ss: seq<Release>, k: nat, s: Release)
    requires Decided(rs, ss, k, s) && Decides(rs[k], s) && StatesOk(rs) && LiveKept(rs)
    requires RowsEvolve(rs, ss) && LiveAdvances(rs, ss)
    ensures LiveKept(ss)
  {
    LiveStaysKept(rs, ss);
  }

  lemma DecidedKeepsRoots(rs: seq<Release>, ss: seq<Release>, k: nat, s: Release)
    requires Decided(rs, ss, k, s) && Decides(rs[k], s) && StatesOk(rs) && AutoRooted(rs) && RowsEvolve(rs, ss)
    ensures AutoRooted(ss)
  {
    forall j | 0 <= j < |ss| && ss[j].note == Some(AutoPublished)
      ensures exists i: nat :: RootedAt(ss, i, j)
    {
      assert rs[j].note == ss[j].note;
      RootsStay(rs, ss, j);
    }
  }

  lemma DecidedKeepsTable(rs: seq<Release>, ss: seq<Release>, k: nat, s: Release)
    requires TableOk(rs) && Decided(rs, ss, k, s) && Decides(rs[k], s)
    ensures TableOk(ss) && RowsEvolve(rs, ss) && LiveAdvances(rs, ss)
  {
    DecidedKeepsUniqueness(rs, ss, k, s);
    DecidedKeepsPartialIndexes(rs, ss, k, s);
    DecidedEvolves(rs, ss, k, s);
    DecidedKeepsTexts(rs, ss, k, s);
    DecidedAdvances(rs, ss, k, s);
    DecidedKeepsLive(rs, ss, k, s);
    DecidedKeepsRoots(rs, ss, k, s);
  }
}
