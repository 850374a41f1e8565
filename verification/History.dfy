/** What the present rows say about the run that led to them. */
module History {
  import opened Basics
  import opened Notes
  import opened Submissions
  import opened Registry
  import opened Versions
  import opened Tables
  import opened Publishing
  import opened Reviewing
  import opened Ownership
  import opened Catalogue
  import opened Seeding
  import opened Invariants
  import opened AuditTrail
  import opened Commits
  import opened Protocol
  import opened Safety
  import opened Progress

  // ---- everything a step can do to the release table ----

  /** The fetch that call `call` is about to commit read these bytes. */
  predicate HasFetched(call: Call, fetch: Fetch) {
    || (call.PublishCall? && call.pc.Recording? && call.pc.fetch == fetch)
    || (call.ReverifyCall? && call.rpc.Rerecording? && call.rpc.fetch == fetch)
  }

  /** The columns that say what was computed. */
  predicate Carries(s: Release, c: Computed) {
    s.sha256 == Some(c.digest) && s.bytes == Some(c.bytes) && s.verifiedAt == Some(c.at)
  }

  /** Step `l` turns row `r` into `s`: it leaves it, retires it, decides it as the step says, or fills
      the blank of a failed fetch with what a re-verification of that row computed. */
  predicate RowStep(w: World, l: Label, r: Release, s: Release) {
    || s == r
    || (s == r.(state := Superseded) && (r.state == Pending || r.state == Approved))
    || (l.DoApprove? && l.release == r.id && r.state == Pending
        && s == r.(state := Approved, reviewedBy := Some(l.reviewer), reviewedAt := Some(l.now), note := s.note)
        && s.note != Some(AutoPublished))
    || (l.DoReject? && l.release == r.id && r.state == Pending
        && s == r.(state := Rejected, reviewedBy := Some(l.reviewer), reviewedAt := Some(l.now), note := s.note)
        && s.note != Some(AutoPublished))
    || (l.Commit? && l.call in w.calls && w.calls[l.call].ReverifyCall? && w.calls[l.call].rpc.Rerecording?
        && w.calls[l.call].rpc.row.id == r.id && w.calls[l.call].rpc.fetch.Fetched?
        && r.state == Pending && r.verifiedAt.None? && Carries(s, w.calls[l.call].rpc.fetch.computed)
        && s == r.(sha256 := s.sha256, bytes := s.bytes, verifiedAt := s.verifiedAt, note := Some(ReverifiedNote)))
  }

  /** `s` is the row a publish writes at step `l`: what its request submitted and its fetch computed. */
  ghost predicate PublishedBy(lib: Lib, w: World, l: Label, s: Release) {
    && l.Commit? && l.call in w.calls && w.calls[l.call].PublishCall? && w.calls[l.call].pc.Recording?
    && var req, pc := w.calls[l.call].req, w.calls[l.call].pc;
       var verdict := Decide(lib, pc.prev, pc.trust, req.sub, pc.fetch);
       && RecordTx(w.db, req, verdict, l.id, l.now).1.Ok?
       && RowSays(s, req, pc.fetch, l.id, l.now)
       && s.state == Narrow(verdict, TrustOf(w.db.trust, req.account)).state
       && s.note == Some(Narrow(verdict, TrustOf(w.db.trust, req.account)).review)
  }

  /** `s` is what the import writes for listing `p`. */
  predicate ListingRow(p: Listing, s: Release) {
    && s.source == Imported && s.state == Approved && s.plugin == p.id && s.version == p.version && s.url == p.url
    && s.sha256 == Some(p.sha256) && s.sdk == p.sdk && s.minApp == p.minApp && s.bytes == None && s.verifiedAt == None
  }

  /** `s` is a row the catalogue import writes at step `l`, into a database without plugins. */
  ghost predicate ImportedBy(w: World, l: Label, s: Release) {
    l.DoImport? && w.db.plugins == map[] && s.source == Imported && s.state == Approved
    && exists p :: p in l.seed && ListingRow(p, s)
  }

  ghost predicate StepOfRows(lib: Lib, w: World, l: Label, ss: seq<Release>) {
    var rs := w.db.releases;
    && |rs| <= |ss|
    && (forall i :: 0 <= i < |rs| ==> RowStep(w, l, rs[i], ss[i]))
    && (forall i :: |rs| <= i < |ss| ==> (PublishedBy(lib, w, l, ss[i]) && i == |rs|) || ImportedBy(w, l, ss[i]))
  }

  lemma NothingMoves(lib: Lib, w: World, l: Label)
    ensures StepOfRows(lib, w, l, w.db.releases)
  {
  }

  lemma PublishMoves(lib: Lib, w: World, l: Label)
    requires l.Commit? && l.call in w.calls && w.calls[l.call].PublishCall? && w.calls[l.call].pc.Recording?
    ensures StepOfRows(lib, w, l, CallStep(lib, w, l).db.releases)
  {
    hide RecordTx, Decide, LiveRow, Waiting, RecordRefusal, RecordedOutcome, TrustOf, StepOfRows, Recorded, PublishRow, RowSays;
    var req, pc := w.calls[l.call].req, w.calls[l.call].pc;
    var verdict := Decide(lib, pc.prev, pc.trust, req.sub, pc.fetch);
    if RecordTx(w.db, req, verdict, l.id, l.now).1.Ok? {
      CommittedMeans(w.db, req, verdict, l.id, l.now);
      VerdictSays(lib, pc.prev, pc.trust, req.sub, pc.fetch);
      RecordedSays(w.db, req, Narrow(verdict, TrustOf(w.db.trust, req.account)), l.id, l.now);
      RecordedMoves(lib, w, l, req, Narrow(verdict, TrustOf(w.db.trust, req.account)));
    } else {
      NothingWritten(w.db, req, verdict, l.id, l.now);
      NothingMoves(lib, w, l);
    }
  }

  lemma NothingWritten(db: Db, req: Request, verdict: Verdict, id: string, now: int)
    ensures RecordTx(db, req, verdict, id, now).1.Err? ==> RecordTx(db, req, verdict, id, now).0 == db
  {
    hide RecordRefusal, InsertProblem, Recorded, RecordedOutcome, Waiting, Retired;
  }

  lemma RecordedMoves(lib: Lib, w: World, l: Label, req: Request, v: Verdict)
    requires l.Commit? && PublishedBy(lib, w, l, Recorded(w.db, req, v, l.id, l.now).releases[|w.db.releases|])
    ensures StepOfRows(lib, w, l, Recorded(w.db, req, v, l.id, l.now).releases)
  {
    hide PublishedBy, PublishRow;
    var rs, ss := w.db.releases, Recorded(w.db, req, v, l.id, l.now).releases;
    forall i | 0 <= i < |rs|
      ensures RowStep(w, l, rs[i], ss[i])
    {
      assert ss[i] == Retired(rs, req.sub.plugin, v)[i];
    }
  }

  lemma ReverifyMoves(lib: Lib, w: World, l: Label, row: Release, reviewer: string, fetch: Fetch)
    requires l.Commit? && l.call in w.calls && w.calls[l.call] == ReverifyCall(reviewer, Rerecording(row, fetch))
    ensures StepOfRows(lib, w, l, ReverifyTx(w.db, row, reviewer, fetch).0.releases)
  {
    hide RowWithId, PublishedBy;
  }

  lemma ApproveMoves(lib: Lib, w: World, l: Label)
    requires l.DoApprove? && UniqueIds(w.db.releases)
    ensures StepOfRows(lib, w, l, ApproveTx(w.db, l.release, l.reviewer, l.note, l.now).0.releases)
  {
    hide StepOfRows, ApproveAdmitted, TrimSpace, RowWithId, LiveRow, ApprovedRows, ActorProblem;
    var rs, ss := w.db.releases, ApproveTx(w.db, l.release, l.reviewer, l.note, l.now).0.releases;
    NothingMoves(lib, w, l);
    if ss != rs {
      var k := PendingAt(rs, l.release).value;
      RowsApproved(rs, k, l.reviewer, TrimSpace(l.note), l.now);
      DecidedMoves(lib, w, l, ss, k, ApprovedRow(rs[k], l.reviewer, TrimSpace(l.note), l.now));
    }
  }

  lemma DecidedMoves(lib: Lib, w: World, l: Label, ss: seq<Release>, k: nat, s: Release)
    requires Decided(w.db.releases, ss, k, s) && RowStep(w, l, w.db.releases[k], s)
    ensures StepOfRows(lib, w, l, ss)
  {
    hide PublishedBy;
    forall i | 0 <= i < |ss|
      ensures RowStep(w, l, w.db.releases[i], ss[i])
    {
      assert i != k ==> ss[i] == AfterDecision(w.db.releases[i], s);
    }
  }

  lemma RejectMoves(lib: Lib, w: World, l: Label)
    requires l.DoReject?
    ensures StepOfRows(lib, w, l, RejectTx(w.db, l.release, l.reviewer, l.note, l.now).0.releases)
  {
    hide PublishedBy, TrimSpace, RowWithId;
  }

  lemma ImportMoves(lib: Lib, w: World, l: Label)
    requires DbOk(w.db) && l.DoImport? && |l.ids| == |l.seed|
    ensures StepOfRows(lib, w, l, ImportTx(w.db, l.seed, l.ids, l.now).0.releases)
  {
    hide DbOk, PublishedBy, AllRender, NewIndexOf, InsertImported, ImportAll;
    var d := ImportTx(w.db, l.seed, l.ids, l.now).0;
    if d.releases != w.db.releases {
      IndexKeepsSize(l.seed);
      NoPluginsNoRows(w.db);
      var ls := NewIndexOf(l.seed).value;
      ImportedRowsAre(w.db, ls, l.ids, l.now);
      forall i | 0 <= i < |d.releases|
        ensures ImportedBy(w, l, d.releases[i])
      {
        IndexHoldsSeed(l.seed, i);
      }
    }
  }

  lemma IndexHoldsSeed(seed: seq<Listing>, i: nat)
    requires NewIndexOf(seed).Some? && i < |NewIndexOf(seed).value|
    ensures NewIndexOf(seed).value[i] in seed
  {
    hide AllRender, DistinctIds, SortBy;
    SortPermutes(seed, ListingId);
    assert NewIndexOf(seed).value[i] in multiset(NewIndexOf(seed).value);
  }

  /** Row by row, the import writes its listings. */
  lemma {:induction false} ImportedRowsAre(db: Db, ls: seq<Listing>, ids: seq<string>, now: int)
    requires |ids| == |ls| && db.releases == [] && ImportAll(db, ls, ids, now).Ok?
    ensures var rs := ImportAll(db, ls, ids, now).value.releases;
            |rs| == |ls| && forall i :: 0 <= i < |rs| ==> ListingRow(ls[i], rs[i])
  {
    hide ListingRow;
    if ls != [] {
      var n := |ls| - 1;
      ImportedRowsAre(db, ls[..n], ids[..n], now);
      OneListingRow(ImportAll(db, ls[..n], ids[..n], now).value, ls[n], ids[n], now);
    }
  }

  lemma OneListingRow(d: Db, l: Listing, id: string, now: int)
    requires InsertImported(d, l, id, now).Ok?
    ensures var rs := InsertImported(d, l, id, now).value.releases;
            |rs| == |d.releases| + 1 && rs[..|d.releases|] == d.releases && ListingRow(l, rs[|d.releases|])
  {
    hide ValidateReleaseNotes, InsertAdmitted, PluginChecks;
  }

  lemma DirectMoves(lib: Lib, w: World, l: Label)
    requires DbOk(w.db)
    ensures StepOfRows(lib, w, l, DirectStep(w.db, l).releases)
  {
    hide DbOk, StepOfRows, ApproveTx, RejectTx, ImportTx, ClaimUsable, TrimSpace, LiveRow, Holders, IsPluginId, OneApproved, UniqueVersions;
    NothingMoves(lib, w, l);
    UniqueVersionsOfDb(w.db);
    match l
    case DoApprove(_, _, _, _) => ApproveMoves(lib, w, l);
    case DoReject(_, _, _, _) => RejectMoves(lib, w, l);
    case DoImport(seed, ids, now) => if |ids| == |seed| { ImportMoves(lib, w, l); }
    case _ =>
  }

  /** The whole list: no step of anybody's does anything else to a release. */
  lemma HowRowsMove(lib: Lib, w: World, l: Label)
    requires WorldOk(lib, w)
    ensures StepOfRows(lib, w, l, Next(lib, w, l).db.releases)
  {
    hide WorldOk, StepOfRows, DirectStep, PublishStep, ReadStep, ReverifyTx, ReverifyRead, NewSubmission, FetchInRange;
    NothingMoves(lib, w, l);
    DbIn(lib, w);
    match l
    case Read(c) =>
      if c in w.calls && w.calls[c].PublishCall? {
        ReadStepOnlyReads(w, c, w.calls[c].req, w.calls[c].pc);
      }
    case Commit(c, id, now) =>
      if c in w.calls && w.calls[c].PublishCall? && w.calls[c].pc.Recording? {
        PublishMoves(lib, w, l);
      }
      if c in w.calls && w.calls[c].ReverifyCall? && w.calls[c].rpc.Rerecording? {
        ReverifyMoves(lib, w, l, w.calls[c].rpc.row, w.calls[c].reviewer, w.calls[c].rpc.fetch);
      }
    case FetchDone(_, _) =>
    case StartPublish(_, _, _, _) =>
    case StartReverify(_, _, _) =>
    case Abandon(_) =>
    case _ => DirectMoves(lib, w, l);
  }

  // ---- how a release goes live ----

  /** A human let `s` in at step `l`: the reviewer the step names, or whoever ran the registry it was
      imported from. */
  ghost predicate LetIn(w: World, l: Label, s: Release) {
    || ImportedBy(w, l, s)
    || (l.DoApprove? && l.release == s.id && s.reviewedBy == Some(l.reviewer))
  }

  /** `s` went live by itself at step `l`: it is the row that step published, its bytes were read and have
      the digest its submitter claimed, it is higher than the live release it replaces, and the submitter
      was trusted and held the plugin. */
  ghost predicate WentLiveAlone(lib: Lib, w: World, l: Label, s: Release) {
    && PublishedBy(lib, w, l, s) && s.note == Some(AutoPublished) && s.submittedBy.Some?
    && (var call := w.calls[l.call];
        && call.pc.fetch.Fetched? && call.pc.fetch.computed.digest == call.req.sub.submitted
        && s.sha256 == Some(call.req.sub.submitted) && s.submittedBy == Some(call.req.account))
    && s.submittedBy.value in w.db.trust && w.db.trust[s.submittedBy.value] == Trusted
    && (s.plugin, s.submittedBy.value) in w.db.grants
    && exists i :: 0 <= i < |w.db.releases| && w.db.releases[i].plugin == s.plugin && w.db.releases[i].state == Approved
                   && Compare(w.db.releases[i].version, s.version) == Higher
  }

  lemma PublishedAlone(lib: Lib, w: World, l: Label, s: Release)
    requires PublishedBy(lib, w, l, s) && (s.state == Approved || s.note == Some(AutoPublished))
    ensures WentLiveAlone(lib, w, l, s) && s.state == Approved
  {
    hide RecordTx, RecordRefusal, LiveRow, Compare, SizeChangedSharply, Decide;
    var req, pc := w.calls[l.call].req, w.calls[l.call].pc;
    var verdict := Decide(lib, pc.prev, pc.trust, req.sub, pc.fetch);
    OnlyApprovedIsAutomatic(lib, pc.prev, pc.trust, req.sub, pc.fetch, TrustOf(w.db.trust, req.account));
    CommittedMeans(w.db, req, verdict, l.id, l.now);
    CommittedApproved(lib, w.db, req, pc.trust, pc.prev, pc.fetch, l.id, l.now);
    NarrowedApproved(verdict, TrustOf(w.db.trust, req.account));
    ApprovedMeans(lib, pc.prev, pc.trust, req.sub, pc.fetch);
    assert w.db.releases[LiveRow(w.db.releases, req.sub.plugin).value].plugin == s.plugin;
  }

  lemma OnlyApprovedIsAutomatic(lib: Lib, prev: Previous, trust: Trust, sub: Submission, fetch: Fetch, trustNow: Trust)
    ensures var v := Narrow(Decide(lib, prev, trust, sub, fetch), trustNow);
            v.state == Approved <==> v.review == AutoPublished
  {
    hide Reasons, Verified;
  }

  /** A step that makes a release live is a human's, or the commit of a publish that had everything an
      automatic one needs. Nothing else does. */
  lemma GoesLiveOnlyBy(lib: Lib, w: World, l: Label, i: nat)
    requires WorldOk(lib, w) && i < |Next(lib, w, l).db.releases|
    requires var s := Next(lib, w, l).db.releases[i];
             s.state == Approved && (i < |w.db.releases| ==> w.db.releases[i].state != Approved)
    ensures var s := Next(lib, w, l).db.releases[i]; LetIn(w, l, s) || WentLiveAlone(lib, w, l, s)
  {
    hide WorldOk, Next, PublishedBy, WentLiveAlone;
    HowRowsMove(lib, w, l);
    var s := Next(lib, w, l).db.releases[i];
    if PublishedBy(lib, w, l, s) {
      PublishedAlone(lib, w, l, s);
    }
  }

  /** A plugin that has no live release gets one only from a human. */
  lemma FirstOneIsLetIn(lib: Lib, w: World, l: Label, plugin: string)
    requires WorldOk(lib, w) && LiveRow(w.db.releases, plugin).None? && LiveRow(Next(lib, w, l).db.releases, plugin).Some?
    ensures var ss := Next(lib, w, l).db.releases; LetIn(w, l, ss[LiveRow(ss, plugin).value])
  {
    hide WorldOk, Next, PublishedBy, LetIn, LiveRow;
    HowRowsMove(lib, w, l);
    var ss := Next(lib, w, l).db.releases;
    var j := LiveRow(ss, plugin).value;
    assert j < |w.db.releases| ==> RowStep(w, l, w.db.releases[j], ss[j]);
    GoesLiveOnlyBy(lib, w, l, j);
  }

  ghost predicate LiveAt(lib: Lib, ls: seq<Label>, k: nat, plugin: string)
    requires k <= |ls|
  {
    LiveRow(Run(lib, START, ls[..k]).db.releases, plugin).Some?
  }

  /** Step `k` is the first of the run after which `plugin` is live. */
  ghost predicate FirstLiveStep(lib: Lib, ls: seq<Label>, k: nat, plugin: string) {
    k < |ls| && (forall j :: 0 <= j <= k ==> !LiveAt(lib, ls, j, plugin)) && LiveAt(lib, ls, k + 1, plugin)
  }

  lemma RunOneMore(lib: Lib, w: World, ls: seq<Label>, k: nat)
    requires k < |ls|
    ensures Run(lib, w, ls[..k + 1]) == Next(lib, Run(lib, w, ls[..k]), ls[k])
  {
    hide Next;
    assert ls[..k + 1][..k] == ls[..k];
  }

  lemma PrefixOk(lib: Lib, ls: seq<Label>, k: nat)
    requires k <= |ls|
    ensures WorldOk(lib, Run(lib, START, ls[..k]))
  {
    hide WorldOk, Run;
    StartOk(lib);
    RunKeeps(lib, START, ls[..k]);
  }

  /** In every run the first release of a plugin ever to be live was let in by a human: imported, or
      approved by the reviewer of that very step. */
  lemma FirstLiveIsHuman(lib: Lib, ls: seq<Label>, k: nat, plugin: string)
    requires FirstLiveStep(lib, ls, k, plugin)
    ensures var w, ss := Run(lib, START, ls[..k]), Run(lib, START, ls[..k + 1]).db.releases;
            LetIn(w, ls[k], ss[LiveRow(ss, plugin).value])
  {
    hide WorldOk, Run, Next, LiveRow, LetIn;
    PrefixOk(lib, ls, k);
    RunOneMore(lib, START, ls, k);
    assert !LiveAt(lib, ls, k, plugin);
    FirstOneIsLetIn(lib, Run(lib, START, ls[..k]), ls[k], plugin);
  }

  /** And a plugin that is live has such a first step. */
  lemma {:induction false} LiveHasFirstStep(lib: Lib, ls: seq<Label>, plugin: string)
    requires LiveRow(Run(lib, START, ls).db.releases, plugin).Some?
    ensures exists k: nat :: FirstLiveStep(lib, ls, k, plugin)
  {
    hide Next, LiveRow;
    var k: nat := 0;
    NothingLiveAtStart(plugin);
    assert ls[..0] == [] && ls[..|ls|] == ls;
    while !LiveAt(lib, ls, k + 1, plugin)
      invariant k < |ls| && forall j :: 0 <= j <= k ==> !LiveAt(lib, ls, j, plugin)
      decreases |ls| - k
    {
      k := k + 1;
    }
    assert FirstLiveStep(lib, ls, k, plugin);
  }

  lemma NothingLiveAtStart(plugin: string)
    ensures LiveRow(START.db.releases, plugin).None?
  {
  }

  // ---- every automatic release has its commit ----

  /** Row `i` was written by step `k`, which found everything an automatic publish needs. */
  ghost predicate AutomaticStep(lib: Lib, ls: seq<Label>, k: nat, i: nat) {
    && k < |ls| && i == |Run(lib, START, ls[..k]).db.releases| < |Run(lib, START, ls[..k + 1]).db.releases|
    && WentLiveAlone(lib, Run(lib, START, ls[..k]), ls[k], Run(lib, START, ls[..k + 1]).db.releases[i])
  }

  /** In every run, a release whose note says it was published automatically was written by a commit at
      which its submitter was trusted and held the plugin, over a live release it was higher than. */
  lemma {:induction false} AutomaticHasItsCommit(lib: Lib, ls: seq<Label>, i: nat)
    requires i < |Run(lib, START, ls).db.releases| && Run(lib, START, ls).db.releases[i].note == Some(AutoPublished)
    ensures exists k: nat :: AutomaticStep(lib, ls, k, i)
  {
    hide WorldOk, Next, WentLiveAlone, PublishedBy;
    if ls != [] {
      var n := |ls| - 1;
      var w := Run(lib, START, ls[..n]);
      PrefixOk(lib, ls, n);
      HowRowsMove(lib, w, ls[n]);
      assert ls[..n + 1] == ls;
      if i < |w.db.releases| {
        AutomaticHasItsCommit(lib, ls[..n], i);
        var k: nat :| AutomaticStep(lib, ls[..n], k, i);
        assert ls[..n][..k] == ls[..k] && ls[..n][..k + 1] == ls[..k + 1];
        assert AutomaticStep(lib, ls, k, i);
      } else {
        NewAutomatic(lib, w, ls[n], i);
        assert AutomaticStep(lib, ls, n, i);
      }
    }
  }

  lemma NewAutomatic(lib: Lib, w: World, l: Label, i: nat)
    requires WorldOk(lib, w) && |w.db.releases| <= i < |Next(lib, w, l).db.releases|
    requires Next(lib, w, l).db.releases[i].note == Some(AutoPublished)
    ensures i == |w.db.releases| && WentLiveAlone(lib, w, l, Next(lib, w, l).db.releases[i])
  {
    hide WorldOk, Next, WentLiveAlone, PublishedBy;
    HowRowsMove(lib, w, l);
    var s := Next(lib, w, l).db.releases[i];
    if ImportedBy(w, l, s) {
      ImportedNotAutomatic(lib, w, l, i);
    }
    PublishedAlone(lib, w, l, s);
  }

  lemma ImportedNotAutomatic(lib: Lib, w: World, l: Label, i: nat)
    requires WorldOk(lib, w) && i < |Next(lib, w, l).db.releases| && Next(lib, w, l).db.releases[i].source == Imported
    ensures Next(lib, w, l).db.releases[i].note != Some(AutoPublished)
  {
    hide WorldOk, Next, DbEvolves;
    NextKeeps(lib, w, l);
    StateIn(lib, Next(lib, w, l), i);
  }

  // ---- every stored hash was computed ----

  /** A fetch that is about to be committed was reported by an earlier step of the same call. */
  lemma {:induction false} FetchCame(lib: Lib, ls: seq<Label>, c: nat, fetch: Fetch)
    requires c in Run(lib, START, ls).calls && HasFetched(Run(lib, START, ls).calls[c], fetch)
    ensures exists j :: 0 <= j < |ls| && ls[j] == FetchDone(c, fetch)
  {
    hide Next, HasFetched;
    if ls != [] {
      var n := |ls| - 1;
      var w := Run(lib, START, ls[..n]);
      FetchesComeFromSteps(lib, w, ls[n], c, fetch);
      if ls[n] != FetchDone(c, fetch) {
        FetchCame(lib, ls[..n], c, fetch);
        var j :| 0 <= j < n && ls[..n][j] == FetchDone(c, fetch);
        assert ls[j] == FetchDone(c, fetch);
      }
    }
  }

  lemma FetchesComeFromSteps(lib: Lib, w: World, l: Label, c: nat, fetch: Fetch)
    requires c in Next(lib, w, l).calls && HasFetched(Next(lib, w, l).calls[c], fetch)
    ensures l == FetchDone(c, fetch) || (c in w.calls && HasFetched(w.calls[c], fetch))
  {
    hide DirectStep, NewSubmission, SeenKey, OutcomeOf, HoldsGrant, CanPublish, RowWithVersion, TrustOf;
    hide PreviousOf, RecordTx, Decide, ReverifyRead, ReverifyTx, FetchInRange, TrimSpace, HashRequest;
  }

  /** Steps `j` and `k` are the fetch and the commit of one call, which read the bytes of row `s` and wrote
      what it computed into it: the publish that made the row, or a re-verification of it. */
  ghost predicate ComputedAt(lib: Lib, ls: seq<Label>, j: nat, k: nat, s: Release) {
    && j < k < |ls| && ls[k].Commit? && ls[j].FetchDone? && ls[j].call == ls[k].call && ls[j].fetch.Fetched?
    && Carries(s, ls[j].fetch.computed)
    && ls[k].call in Run(lib, START, ls[..k]).calls
    && var call := Run(lib, START, ls[..k]).calls[ls[k].call];
       && HasFetched(call, ls[j].fetch)
       && (if call.PublishCall? then s.id == ls[k].id && s.url == call.req.sub.url else call.rpc.row.id == s.id)
  }

  ghost predicate ImportedAt(ls: seq<Label>, k: nat, s: Release) {
    k < |ls| && ls[k].DoImport? && exists p :: p in ls[k].seed && p.id == s.plugin && p.version == s.version
                                               && p.url == s.url && s.sha256 == Some(p.sha256)
  }

  /** In every run, every hash in the table is one that a listing was imported with, or the digest of the
      bytes that the call which wrote it had fetched. The hash a publisher claims is never stored. */
  lemma {:induction false} StoredHashesWereComputed(lib: Lib, ls: seq<Label>, i: nat)
    requires i < |Run(lib, START, ls).db.releases| && Run(lib, START, ls).db.releases[i].sha256.Some?
    ensures var s := Run(lib, START, ls).db.releases[i];
            if s.source == Imported then exists k: nat :: ImportedAt(ls, k, s)
            else exists j: nat, k: nat :: ComputedAt(lib, ls, j, k, s)
  {
    hide WorldOk, Next, PublishedBy, ImportedBy, RowStep, ComputedAt, ImportedAt;
    if ls != [] {
      var n := |ls| - 1;
      var w := Run(lib, START, ls[..n]);
      PrefixOk(lib, ls, n);
      HowRowsMove(lib, w, ls[n]);
      var s := Run(lib, START, ls).db.releases[i];
      if i < |w.db.releases| {
        StateIn(lib, w, i);
      }
      if i < |w.db.releases| && !Filled(w, ls[n], w.db.releases[i], s) {
        NotFilled(w, ls[n], w.db.releases[i], s);
        StoredHashesWereComputed(lib, ls[..n], i);
        EarlierStill(lib, ls, w.db.releases[i], s);
        if s.source == Imported {
          var k: nat :| ImportedAt(ls[..n], k, w.db.releases[i]);
          assert ImportedAt(ls, k, s);
        } else {
          var j: nat, k: nat :| ComputedAt(lib, ls[..n], j, k, w.db.releases[i]);
          assert ComputedAt(lib, ls, j, k, s);
        }
      } else if i < |w.db.releases| {
        FilledHere(lib, ls, w.db.releases[i], s);
      } else {
        WrittenHere(lib, ls, s);
      }
    }
  }

  /** The step filled the row. */
  predicate Filled(w: World, l: Label, r: Release, s: Release) {
    RowStep(w, l, r, s) && r.sha256 != s.sha256
  }

  lemma NotFilled(w: World, l: Label, r: Release, s: Release)
    requires RowStep(w, l, r, s) && !Filled(w, l, r, s)
    ensures r.id == s.id && r.source == s.source && r.sha256 == s.sha256
  {
  }

  /** A step that does not fill a row leaves what it says was computed. */
  lemma SameComputed(w: World, l: Label, r: Release, s: Release)
    requires RowStep(w, l, r, s) && r.sha256 == s.sha256 && r.sha256.Some? && StateOk(r)
    ensures s.bytes == r.bytes && s.verifiedAt == r.verifiedAt
    ensures s.id == r.id && s.url == r.url && s.plugin == r.plugin && s.version == r.version
  {
  }

  /** What an earlier part of the run established about a row stands. */
  lemma EarlierStill(lib: Lib, ls: seq<Label>, r: Release, s: Release)
    requires ls != [] && RowStep(Run(lib, START, ls[..|ls| - 1]), ls[|ls| - 1], r, s) && r.sha256 == s.sha256 && r.sha256.Some?
    requires StateOk(r)
    ensures forall k: nat :: ImportedAt(ls[..|ls| - 1], k, r) ==> ImportedAt(ls, k, s)
    ensures forall j: nat, k: nat :: ComputedAt(lib, ls[..|ls| - 1], j, k, r) ==> ComputedAt(lib, ls, j, k, s)
  {
    hide RowStep, Run, HasFetched, StateOk;
    var n := |ls| - 1;
    SameComputed(Run(lib, START, ls[..n]), ls[n], r, s);
    forall j: nat, k: nat | ComputedAt(lib, ls[..n], j, k, r)
      ensures ComputedAt(lib, ls, j, k, s)
    {
      assert ls[..n][..k] == ls[..k];
    }
  }

  lemma FilledHere(lib: Lib, ls: seq<Label>, r: Release, s: Release)
    requires ls != [] && Filled(Run(lib, START, ls[..|ls| - 1]), ls[|ls| - 1], r, s) && StateOk(r)
    ensures s.source != Imported && exists j: nat, k: nat :: ComputedAt(lib, ls, j, k, s)
  {
    hide Run;
    var n := |ls| - 1;
    var call := Run(lib, START, ls[..n]).calls[ls[n].call];
    FetchCame(lib, ls[..n], ls[n].call, call.rpc.fetch);
    var j :| 0 <= j < n && ls[..n][j] == FetchDone(ls[n].call, call.rpc.fetch);
    assert ComputedAt(lib, ls, j, n, s);
  }

  lemma WrittenHere(lib: Lib, ls: seq<Label>, s: Release)
    requires ls != [] && s.sha256.Some?
    requires PublishedBy(lib, Run(lib, START, ls[..|ls| - 1]), ls[|ls| - 1], s) || ImportedBy(Run(lib, START, ls[..|ls| - 1]), ls[|ls| - 1], s)
    ensures if s.source == Imported then exists k: nat :: ImportedAt(ls, k, s)
            else exists j: nat, k: nat :: ComputedAt(lib, ls, j, k, s)
  {
    hide Run, RecordTx, Decide, Narrow;
    var n := |ls| - 1;
    var w := Run(lib, START, ls[..n]);
    if ImportedBy(w, ls[n], s) {
      assert ImportedAt(ls, n, s);
    } else {
      var call := w.calls[ls[n].call];
      FetchCame(lib, ls[..n], ls[n].call, call.pc.fetch);
      var j :| 0 <= j < n && ls[..n][j] == FetchDone(ls[n].call, call.pc.fetch);
      assert ComputedAt(lib, ls, j, n, s);
    }
  }

  /** In every run a release that went live by itself serves the digest its submitter claimed, which is that
      of the bytes its own call had fetched. */
  lemma AutomaticServesWhatWasClaimed(lib: Lib, ls: seq<Label>, i: nat)
    requires i < |Run(lib, START, ls).db.releases| && Run(lib, START, ls).db.releases[i].note == Some(AutoPublished)
    ensures exists j: nat, k: nat :: AutomaticStep(lib, ls, k, i) && j < k && ls[j].FetchDone? && ls[j].call == ls[k].call
                 && ls[j].fetch.Fetched?
                 && var call := Run(lib, START, ls[..k]).calls[ls[k].call];
                    && Run(lib, START, ls).db.releases[i].sha256 == Some(ls[j].fetch.computed.digest)
                    && call.req.sub.submitted == ls[j].fetch.computed.digest
  {
    hide Run, WentLiveAlone;
    AutomaticHasItsCommit(lib, ls, i);
    var k: nat :| AutomaticStep(lib, ls, k, i);
    var j := CommitHadItsFetch(lib, ls, k, Run(lib, START, ls[..k + 1]).db.releases[i]);
    HashStays(lib, ls, k + 1, i);
  }

  lemma CommitHadItsFetch(lib: Lib, ls: seq<Label>, k: nat, s: Release) returns (j: nat)
    requires k < |ls| && WentLiveAlone(lib, Run(lib, START, ls[..k]), ls[k], s)
    ensures j < k && ls[j].FetchDone? && ls[j].call == ls[k].call && ls[j].fetch.Fetched?
    ensures s.sha256 == Some(ls[j].fetch.computed.digest)
    ensures ls[k].call in Run(lib, START, ls[..k]).calls
    ensures Run(lib, START, ls[..k]).calls[ls[k].call].req.sub.submitted == ls[j].fetch.computed.digest
  {
    hide Run, RecordTx, Decide, RowSays;
    var fetch := Run(lib, START, ls[..k]).calls[ls[k].call].pc.fetch;
    FetchCame(lib, ls[..k], ls[k].call, fetch);
    j :| 0 <= j < k && ls[..k][j] == FetchDone(ls[k].call, fetch);
  }

  lemma HashStays(lib: Lib, ls: seq<Label>, k: nat, i: nat)
    requires k <= |ls| && i < |Run(lib, START, ls[..k]).db.releases| && Run(lib, START, ls[..k]).db.releases[i].sha256.Some?
    ensures i < |Run(lib, START, ls).db.releases|
    ensures Run(lib, START, ls).db.releases[i].sha256 == Run(lib, START, ls[..k]).db.releases[i].sha256
  {
    hide WorldOk, Run, LiveAdvances;
    RunSplits(lib, START, ls[..k], ls[k..]);
    assert ls[..k] + ls[k..] == ls;
    PrefixOk(lib, ls, k);
    RunKeeps(lib, Run(lib, START, ls[..k]), ls[k..]);
    assert RowEvolves(Run(lib, START, ls[..k]).db.releases[i], Run(lib, START, ls).db.releases[i]);
  }

  /** In every run whoever submitted a published release may publish, and always will. */
  lemma {:induction false} SubmittersMayPublish(lib: Lib, ls: seq<Label>, i: nat)
    requires i < |Run(lib, START, ls).db.releases| && Run(lib, START, ls).db.releases[i].source == Published
    ensures var db := Run(lib, START, ls).db;
            db.releases[i].submittedBy.Some? && db.releases[i].submittedBy.value in db.accounts && db.accounts[db.releases[i].submittedBy.value].canPublish
  {
    hide WorldOk, Next, PublishedBy, RowsEvolve, LiveAdvances;
    if ls != [] {
      var n := |ls| - 1;
      var w := Run(lib, START, ls[..n]);
      PrefixOk(lib, ls, n);
      HowRowsMove(lib, w, ls[n]);
      NextKeeps(lib, w, ls[n]);
      if i < |w.db.releases| {
        assert RowStep(w, ls[n], w.db.releases[i], Run(lib, START, ls).db.releases[i]);
        SubmittersMayPublish(lib, ls[..n], i);
        assert CanPublish(w.db, w.db.releases[i].submittedBy.value);
      } else {
        SubmitterMayPublish(lib, w, ls[n], Run(lib, START, ls).db.releases[i]);
      }
    }
  }

  lemma SubmitterMayPublish(lib: Lib, w: World, l: Label, s: Release)
    requires WorldOk(lib, w) && PublishedBy(lib, w, l, s)
    ensures s.submittedBy.Some? && CanPublish(w.db, s.submittedBy.value)
  {
    hide WorldOk, RecordTx, Decide, Narrow, RequestOk, PrevHolds, FetchInRange;
    CallIn(lib, w, l.call);
  }

  // ---- having been live ----

  ghost predicate ApprovedAt(lib: Lib, ls: seq<Label>, k: nat, i: nat) {
    k <= |ls| && i < |Run(lib, START, ls[..k]).db.releases| && Run(lib, START, ls[..k]).db.releases[i].state == Approved
  }

  /** In every run the columns remember: they say a release went live exactly when some state of the
      run had it approved. */
  lemma WentLiveMeansWasApproved(lib: Lib, ls: seq<Label>, i: nat)
    requires i < |Run(lib, START, ls).db.releases|
    ensures WentLive(Run(lib, START, ls).db.releases[i]) <==> exists k: nat :: ApprovedAt(lib, ls, k, i)
  {
    hide WorldOk, Run;
    if k: nat :| ApprovedAt(lib, ls, k, i) {
      RunSplits(lib, START, ls[..k], ls[k..]);
      assert ls[..k] + ls[k..] == ls;
      PrefixOk(lib, ls, k);
      ApprovedStays(lib, Run(lib, START, ls[..k]), ls[k..], i);
    }
    if WentLive(Run(lib, START, ls).db.releases[i]) {
      WasApproved(lib, ls, i);
    }
  }

  lemma ApprovedStays(lib: Lib, w: World, ls: seq<Label>, i: nat)
    requires WorldOk(lib, w) && i < |w.db.releases| && w.db.releases[i].state == Approved
    ensures i < |Run(lib, w, ls).db.releases| && WentLive(Run(lib, w, ls).db.releases[i])
  {
    hide WorldOk, Run, LiveAdvances;
    RunKeeps(lib, w, ls);
    StateIn(lib, w, i);
    WentLiveStays(w.db.releases[i], Run(lib, w, ls).db.releases[i]);
  }

  lemma {:induction false} WasApproved(lib: Lib, ls: seq<Label>, i: nat)
    requires i < |Run(lib, START, ls).db.releases| && WentLive(Run(lib, START, ls).db.releases[i])
    ensures exists k: nat :: ApprovedAt(lib, ls, k, i)
  {
    hide WorldOk, Next;
    assert ls[..|ls|] == ls;
    if Run(lib, START, ls).db.releases[i].state == Approved {
      assert ApprovedAt(lib, ls, |ls|, i);
    } else if ls != [] {
      var n := |ls| - 1;
      PrefixOk(lib, ls, n);
      WentLiveBefore(lib, Run(lib, START, ls[..n]), ls[n], i);
      WasApproved(lib, ls[..n], i);
      var k: nat :| ApprovedAt(lib, ls[..n], k, i);
      assert ls[..n][..k] == ls[..k];
      assert ApprovedAt(lib, ls, k, i);
    }
  }

  /** A release that went live and is not live had gone live before the step. */
  lemma WentLiveBefore(lib: Lib, w: World, l: Label, i: nat)
    requires WorldOk(lib, w) && i < |Next(lib, w, l).db.releases|
    requires WentLive(Next(lib, w, l).db.releases[i]) && Next(lib, w, l).db.releases[i].state != Approved
    ensures i < |w.db.releases| && WentLive(w.db.releases[i])
  {
    hide WorldOk, Next, PublishedBy;
    HowRowsMove(lib, w, l);
    var s := Next(lib, w, l).db.releases[i];
    if i < |w.db.releases| {
      StateIn(lib, w, i);
      assert RowStep(w, l, w.db.releases[i], s);
    } else {
      PublishedState(lib, w, l, s);
    }
  }

  lemma StateIn(lib: Lib, w: World, i: nat)
    requires WorldOk(lib, w) && i < |w.db.releases|
    ensures StateOk(w.db.releases[i])
  {
    hide WorldOk;
    DbIn(lib, w);
    StatesOfDb(w.db);
  }

  lemma PublishedState(lib: Lib, w: World, l: Label, s: Release)
    requires PublishedBy(lib, w, l, s)
    ensures s.state == Pending || s.state == Approved
  {
    hide RecordTx, Reasons, Verified;
  }

  // ---- without a negative epoch the live version only rises ----

  /** A version has no negative epoch unless its `v` is followed by a minus sign. */
  lemma NegativeEpochShows(v: string)
    requires CheckVersion(v) && ParseVersion(v).epoch < 0
    ensures |v| >= 2 && v[..2] == "v-"
  {
    hide ParseRest, DigitsValue;
    VersionIsTrimmed(v);
    NegativeNeedsMinus(Undecorated(v));
  }

  lemma VersionIsTrimmed(v: string)
    requires CheckVersion(v)
    ensures TrimSpace(v) == v && v[0] != '-'
  {
    TrimOfTrimmed(v, IsSpace);
  }

  lemma NegativeNeedsMinus(u: string)
    requires ParseCut(u).epoch < 0
    ensures u != "" && u[0] == '-'
  {
    hide ParseRest, DigitsValue;
  }

  ghost predicate PlainCall(call: Call, plugin: string) {
    call.PublishCall? && call.req.sub.plugin == plugin ==> ParseVersion(call.req.sub.version).epoch >= 0
  }

  /** Neither what `plugin` serves nor what has been submitted for it has a negative epoch. */
  ghost predicate Plain(w: World, plugin: string) {
    LiveParsed(w, plugin).epoch >= 0 && forall c :: c in w.calls ==> PlainCall(w.calls[c], plugin)
  }

  ghost predicate PlainLabel(l: Label, plugin: string) {
    l.StartPublish? && NewSubmission(l.raw).Ok? && NewSubmission(l.raw).value.plugin == plugin ==>
      ParseVersion(NewSubmission(l.raw).value.version).epoch >= 0
  }

  lemma PlainCallsStay(lib: Lib, w: World, l: Label, plugin: string)
    requires Plain(w, plugin) && PlainLabel(l, plugin)
    ensures forall c :: c in Next(lib, w, l).calls ==> PlainCall(Next(lib, w, l).calls[c], plugin)
  {
    hide LiveParsed, DirectStep, NewSubmission, ParseVersion, SeenKey, OutcomeOf, HoldsGrant, CanPublish, RowWithVersion, TrustOf;
    hide PreviousOf, RecordTx, Decide, ReverifyRead, ReverifyTx, FetchInRange, TrimSpace, HashRequest;
  }

  lemma PlainStays(lib: Lib, w: World, l: Label, plugin: string)
    requires WorldOk(lib, w) && LiveRow(w.db.releases, plugin).Some? && !ApprovesPlugin(w.db, l, plugin)
    requires Plain(w, plugin) && PlainLabel(l, plugin)
    ensures Plain(Next(lib, w, l), plugin) && StepFits(lib, w, l, plugin)
  {
    hide WorldOk, Next, LiveRow, Compare, ParseVersion, PlainLabel, PublishedBy, ApprovesPlugin, EpochsFit, Behind;
    PlainCallsStay(lib, w, l, plugin);
    StepAdvances(lib, w, l, plugin);
    var v := Next(lib, w, l);
    if LiveRow(v.db.releases, plugin) != LiveRow(w.db.releases, plugin) {
      NewLiveIsSubmitted(lib, w, l, plugin);
    }
    SameSignEpochsFit(LiveParsed(w, plugin), LiveParsed(v, plugin));
  }

  /** A live release nobody approved is one that a call in flight had submitted. */
  lemma NewLiveIsSubmitted(lib: Lib, w: World, l: Label, plugin: string)
    requires WorldOk(lib, w) && LiveRow(w.db.releases, plugin).Some? && !ApprovesPlugin(w.db, l, plugin)
    requires LiveRow(Next(lib, w, l).db.releases, plugin).Some?
    requires LiveRow(Next(lib, w, l).db.releases, plugin) != LiveRow(w.db.releases, plugin)
    ensures var ss := Next(lib, w, l).db.releases;
            && l.Commit? && l.call in w.calls && w.calls[l.call].PublishCall?
            && w.calls[l.call].req.sub.plugin == plugin
            && ss[LiveRow(ss, plugin).value].version == w.calls[l.call].req.sub.version
  {
    hide WorldOk, Next, DbOk, RowsEvolve, OneApproved, UniqueVersions, UniqueIds, LiveRow, ApprovesPlugin, PublishedBy;
    DbIn(lib, w);
    LiveHasPlugin(w.db, plugin);
    UniqueVersionsOfDb(w.db);
    NextEvolvesRows(lib, w, l);
    var ss := Next(lib, w, l).db.releases;
    var j := LiveRow(ss, plugin).value;
    NotLiveBefore(w.db.releases, ss, plugin, j);
    GoesLiveOnlyBy(lib, w, l, j);
    if LetIn(w, l, ss[j]) {
      HowRowsMove(lib, w, l);
      ApprovedIsOfPlugin(lib, w, l, ss, plugin, j);
    }
    PublishedFrom(lib, w, l, ss[j]);
  }

  lemma NotLiveBefore(rs: seq<Release>, ss: seq<Release>, plugin: string, j: nat)
    requires OneApproved(rs) && RowsEvolve(rs, ss) && LiveRow(ss, plugin) == Some(j) && LiveRow(rs, plugin) != Some(j)
    ensures j < |rs| ==> rs[j].state != Approved
  {
    hide LiveRow;
    if j < |rs| && rs[j].state == Approved {
      assert RowEvolves(rs[j], ss[j]);
      LiveIs(rs, plugin, j);
    }
  }

  lemma PublishedFrom(lib: Lib, w: World, l: Label, s: Release)
    requires PublishedBy(lib, w, l, s)
    ensures l.Commit? && l.call in w.calls && w.calls[l.call].PublishCall?
    ensures s.plugin == w.calls[l.call].req.sub.plugin && s.version == w.calls[l.call].req.sub.version
  {
    hide RecordTx, Decide, Narrow;
  }

  lemma ApprovedIsOfPlugin(lib: Lib, w: World, l: Label, ss: seq<Release>, plugin: string, j: nat)
    requires RowsEvolve(w.db.releases, ss) && UniqueIds(w.db.releases) && j < |ss| && ss[j].plugin == plugin
    requires StepOfRows(lib, w, l, ss) && l.DoApprove? && l.release == ss[j].id
    ensures ApprovesPlugin(w.db, l, plugin)
  {
    hide RowEvolves, RowStep;
    assert j < |w.db.releases|;
    SameIdentity(w.db.releases[j], ss[j]);
  }

  lemma SameIdentity(r: Release, s: Release)
    requires RowEvolves(r, s)
    ensures s.id == r.id && s.plugin == r.plugin
  {
  }

  /** Over a stretch without a human approval in which nothing with a negative epoch is live at its start,
      in flight or submitted, the live version only rises, and the comparison of the last with the first
      says so. */
  lemma {:induction false} PlainVersionsClimb(lib: Lib, w: World, ls: seq<Label>, plugin: string)
    requires WorldOk(lib, w) && LiveRow(w.db.releases, plugin).Some? && Unattended(lib, w, ls, plugin)
    requires Plain(w, plugin) && forall k :: 0 <= k < |ls| ==> PlainLabel(ls[k], plugin)
    ensures AllFit(lib, w, ls, plugin) && AllClimb(lib, w, ls, plugin) && Plain(Run(lib, w, ls), plugin)
    ensures var a, b := LiveParsed(w, plugin), LiveParsed(Run(lib, w, ls), plugin);
            a == b || (Behind(a, b) && CompareParsed(a, b) == Higher)
  {
    hide WorldOk, Next, LiveRow, PlainLabel, ApprovesPlugin, LiveParsed, Behind, CompareParsed, EpochsFit, StepFits, AllClimb, DbEvolves;
    if ls != [] {
      var n := |ls| - 1;
      var mid := Run(lib, w, ls[..n]);
      UnattendedPrefix(lib, w, ls, n, plugin);
      PlainVersionsClimb(lib, w, ls[..n], plugin);
      StaysLive(lib, w, ls[..n], plugin);
      PlainStays(lib, mid, ls[n], plugin);
      FitsOneMore(lib, w, ls, plugin);
    }
    ClimbsExactlyWhenFits(lib, w, ls, plugin);
    LiveVersionsClimb(lib, w, ls, plugin);
    SameSignEpochsFit(LiveParsed(w, plugin), LiveParsed(Run(lib, w, ls), plugin));
  }

  lemma FitsOneMore(lib: Lib, w: World, ls: seq<Label>, plugin: string)
    requires ls != [] && AllFit(lib, w, ls[..|ls| - 1], plugin)
    requires StepFits(lib, Run(lib, w, ls[..|ls| - 1]), ls[|ls| - 1], plugin)
    ensures AllFit(lib, w, ls, plugin)
  {
    hide Run, StepFits;
    var n := |ls| - 1;
    forall k | 0 <= k < |ls|
      ensures StepFits(lib, Run(lib, w, ls[..k]), ls[k], plugin)
    {
      if k < n {
        assert ls[..n][..k] == ls[..k] && ls[..n][k] == ls[k];
      }
    }
  }
}
