/** How the live version moves, who holds a plugin, and what the catalogue's readers see, over runs. */
module Progress {
  import opened Basics
  import opened Notes
  import opened Submissions
  import opened Versions
  import opened Registry
  import opened Tables
  import opened Publishing
  import opened Reviewing
  import opened Ownership
  import opened Catalogue
  import opened Seeding
  import opened Invariants
  import opened AuditTrail
  import opened Commits
  import opened Protocol
  import opened Safety

  // ---- without a human the live version only goes up ----

  /** Step `l` is a reviewer approving a release of `plugin`. */
  predicate ApprovesPlugin(db: Db, l: Label, plugin: string) {
    && l.DoApprove? && RowWithId(db.releases, l.release).Some?
    && db.releases[RowWithId(db.releases, l.release).value].plugin == plugin
  }

  /** The same release is live, or one whose version is higher than its. */
  ghost predicate Advances(rs: seq<Release>, ss: seq<Release>, plugin: string) {
    && LiveRow(rs, plugin).Some? && LiveRow(ss, plugin).Some?
    && (LiveRow(ss, plugin) == LiveRow(rs, plugin)
        || Compare(rs[LiveRow(rs, plugin).value].version, ss[LiveRow(ss, plugin).value].version) == Higher)
  }

  /** Where the live row keeps its state it keeps being the live row. */
  lemma SameLive(rs: seq<Release>, ss: seq<Release>, plugin: string)
    requires LiveRow(rs, plugin).Some? && OneApproved(ss) && RowsEvolve(rs, ss)
    requires ss[LiveRow(rs, plugin).value].state == Approved
    ensures LiveRow(ss, plugin) == LiveRow(rs, plugin)
  {
    var i := LiveRow(rs, plugin).value;
    assert RowEvolves(rs[i], ss[i]);
    LiveIs(ss, plugin, i);
  }

  lemma PublishAdvances(lib: Lib, w: World, c: nat, req: Request, trust: Trust, prev: Previous, fetch: Fetch,
                        id: string, now: int, plugin: string)
    requires WorldOk(lib, w) && c in w.calls && w.calls[c] == PublishCall(req, Recording(trust, prev, fetch))
    requires LiveRow(w.db.releases, plugin).Some?
    ensures Advances(w.db.releases, PublishStep(lib, w, c, req, trust, prev, fetch, id, now).db.releases, plugin)
  {
    hide WorldOk, DbOk, RecordTx, Decide, Compare, RowsEvolve, LiveAdvances, OneApproved, LiveRow, RecordRefusal;
    hide Recorded, RecordedOutcome;
    var d := PublishStep(lib, w, c, req, trust, prev, fetch, id, now).db;
    PublishStepKeeps(lib, w, c, req, trust, prev, fetch, id, now);
    DbIn(lib, w);
    DbIn(lib, PublishStep(lib, w, c, req, trust, prev, fetch, id, now));
    UniqueVersionsOfDb(d);
    var verdict := Decide(lib, prev, trust, req.sub, fetch);
    if RecordTx(w.db, req, verdict, id, now).1.Ok? {
      var v := Narrow(verdict, TrustOf(w.db.trust, req.account));
      CommittedMeans(w.db, req, verdict, id, now);
      if plugin == req.sub.plugin && v.state == Approved {
        CommittedApproved(lib, w.db, req, trust, prev, fetch, id, now);
        NewRowIsLive(w.db, req, v, id, now);
      } else {
        OthersStayLive(w.db, req, v, id, now, plugin);
        SameLive(w.db.releases, d.releases, plugin);
      }
    }
  }

  lemma NewRowIsLive(db: Db, req: Request, v: Verdict, id: string, now: int)
    requires OneApproved(Recorded(db, req, v, id, now).releases) && v.state == Approved
    ensures var ss := Recorded(db, req, v, id, now).releases;
            LiveRow(ss, req.sub.plugin) == Some(|ss| - 1) && ss[|ss| - 1].version == req.sub.version
  {
    var ss := Recorded(db, req, v, id, now).releases;
    LiveIs(ss, req.sub.plugin, |ss| - 1);
  }

  lemma OthersStayLive(db: Db, req: Request, v: Verdict, id: string, now: int, plugin: string)
    requires LiveRow(db.releases, plugin).Some? && (plugin != req.sub.plugin || v.state != Approved)
    ensures Recorded(db, req, v, id, now).releases[LiveRow(db.releases, plugin).value].state == Approved
  {
  }

  lemma CallAdvances(lib: Lib, w: World, l: Label, plugin: string)
    requires WorldOk(lib, w) && (l.Read? || l.FetchDone? || l.Commit?) && l.call in w.calls
    requires LiveRow(w.db.releases, plugin).Some?
    ensures Advances(w.db.releases, CallStep(lib, w, l).db.releases, plugin)
  {
    hide WorldOk, DbOk, Compare, LiveRow, ReadStep, PublishStep, ReverifyTx, ReverifyRead, FetchInRange, DbEvolves, OneApproved;
    var c := l.call;
    match (w.calls[c], l)
    case (PublishCall(req, pc), Read(_)) => ReadStepOnlyReads(w, c, req, pc);
    case (PublishCall(req, Recording(trust, prev, fetch)), Commit(_, id, now)) =>
      PublishAdvances(lib, w, c, req, trust, prev, fetch, id, now, plugin);
    case (ReverifyCall(reviewer, Rerecording(row, fetch)), Commit(_, _, _)) =>
      CallIn(lib, w, c);
      DbIn(lib, w);
      ReverifyKeeps(w.db, row, reviewer, fetch);
      ReverifyStays(w.db, row, reviewer, fetch, plugin);
    case _ =>
  }

  lemma ReverifyStays(db: Db, row: Release, reviewer: string, fetch: Fetch, plugin: string)
    requires LiveRow(db.releases, plugin).Some?
    requires DbOk(ReverifyTx(db, row, reviewer, fetch).0) && DbEvolves(db, ReverifyTx(db, row, reviewer, fetch).0)
    ensures Advances(db.releases, ReverifyTx(db, row, reviewer, fetch).0.releases, plugin)
  {
    hide DbOk, Compare, LiveAdvances, RowWithId, RowsEvolve, OneApproved;
    var d := ReverifyTx(db, row, reviewer, fetch).0;
    UniqueVersionsOfDb(d);
    SameLive(db.releases, d.releases, plugin);
  }

  lemma DirectAdvances(db: Db, l: Label, plugin: string)
    requires DbOk(db) && LiveRow(db.releases, plugin).Some? && !ApprovesPlugin(db, l, plugin)
    ensures Advances(db.releases, DirectStep(db, l).releases, plugin)
  {
    hide DbOk, Compare, LiveRow, RowWithId, RowsEvolve, LiveAdvances, OneApproved, NewIndexOf, ApproveAdmitted, TrimSpace;
    hide ImportAll, ClaimUsable, IsPluginId, Holders;
    DirectStepKeeps(db, l);
    var d := DirectStep(db, l);
    UniqueVersionsOfDb(d);
    UniqueVersionsOfDb(db);
    match l
    case DoApprove(release, reviewer, note, now) =>
      ApproveLeavesOthers(db, release, reviewer, note, now, plugin);
      SameLive(db.releases, d.releases, plugin);
    case DoReject(release, reviewer, note, now) =>
      RejectLeavesLive(db, release, reviewer, note, now, plugin);
      SameLive(db.releases, d.releases, plugin);
    case DoImport(seed, ids, now) =>
      LiveHasPlugin(db, plugin);
    case _ =>
  }

  lemma LiveHasPlugin(db: Db, plugin: string)
    requires DbOk(db) && LiveRow(db.releases, plugin).Some?
    ensures plugin in db.plugins && |db.plugins| > 0
  {
    hide TableOk, LogOk, KeysPoint, RowsKeyed, KeysInjective;
    assert db.releases[LiveRow(db.releases, plugin).value].plugin in db.plugins;
  }

  lemma ApproveLeavesOthers(db: Db, release: string, reviewer: string, note: string, now: int, plugin: string)
    requires LiveRow(db.releases, plugin).Some? && !ApprovesPlugin(db, DoApprove(release, reviewer, note, now), plugin)
    ensures var ss := ApproveTx(db, release, reviewer, note, now).0.releases;
            |ss| == |db.releases| && ss[LiveRow(db.releases, plugin).value].state == Approved
  {
    hide TrimSpace, ApproveAdmitted, ByteLen;
    var i := LiveRow(db.releases, plugin).value;
    var found := PendingAt(db.releases, release);
    if found.Ok? {
      assert WithoutLive(db.releases, db.releases[found.value].plugin)[i] == db.releases[i];
    }
  }

  lemma RejectLeavesLive(db: Db, release: string, reviewer: string, note: string, now: int, plugin: string)
    requires LiveRow(db.releases, plugin).Some?
    ensures var ss := RejectTx(db, release, reviewer, note, now).0.releases;
            |ss| == |db.releases| && ss[LiveRow(db.releases, plugin).value].state == Approved
  {
    hide TrimSpace, ByteLen, RowWithId;
  }

  /** The live version of a plugin, split. */
  ghost function LiveParsed(w: World, plugin: string): (p: Parsed)
    ensures WellFormed(p)
  {
    match LiveRow(w.db.releases, plugin)
    case None => Parsed(0, [], "")
    case Some(k) => ParseVersion(w.db.releases[k].version)
  }

  /** One step of anybody's, short of a human approving this plugin, leaves the live release or
      replaces it by one that compares higher. The replacement is ahead of it exactly when the two
      epochs fit, and behind it when they do not. */
  lemma StepAdvances(lib: Lib, w: World, l: Label, plugin: string)
    requires WorldOk(lib, w) && LiveRow(w.db.releases, plugin).Some? && !ApprovesPlugin(w.db, l, plugin)
    ensures Advances(w.db.releases, Next(lib, w, l).db.releases, plugin)
    ensures var v := Next(lib, w, l);
            var a, b := LiveParsed(w, plugin), LiveParsed(v, plugin);
            if LiveRow(v.db.releases, plugin) == LiveRow(w.db.releases, plugin) then a == b
            else (Behind(a, b) <==> EpochsFit(a, b)) && (Behind(b, a) <==> !EpochsFit(a, b))
  {
    hide WorldOk, Compare, LiveRow, CallStep, DirectStep, NewSubmission, TrimSpace, ApprovesPlugin, Behind, EpochsFit, RowsEvolve;
    match l {
      case Read(c) => if c in w.calls { CallAdvances(lib, w, l, plugin); }
      case FetchDone(c, _) => if c in w.calls { CallAdvances(lib, w, l, plugin); }
      case Commit(c, _, _) => if c in w.calls { CallAdvances(lib, w, l, plugin); }
      case StartPublish(_, _, _, _) =>
      case StartReverify(_, _, _) =>
      case Abandon(_) =>
      case _ =>
        DbIn(lib, w);
        DirectAdvances(w.db, l, plugin);
    }
    NextEvolvesRows(lib, w, l);
    HowItAdvanced(w, Next(lib, w, l), plugin);
  }

  lemma HowItAdvanced(w: World, v: World, plugin: string)
    requires Advances(w.db.releases, v.db.releases, plugin) && RowsEvolve(w.db.releases, v.db.releases)
    ensures var a, b := LiveParsed(w, plugin), LiveParsed(v, plugin);
            if LiveRow(v.db.releases, plugin) == LiveRow(w.db.releases, plugin) then a == b
            else (Behind(a, b) <==> EpochsFit(a, b)) && (Behind(b, a) <==> !EpochsFit(a, b))
  {
    hide ParseVersion, Behind, CompareParsed, EpochsFit;
    var a, b := LiveParsed(w, plugin), LiveParsed(v, plugin);
    var i := LiveRow(w.db.releases, plugin).value;
    assert RowEvolves(w.db.releases[i], v.db.releases[i]);
    CompareIsTheOrder(a, b);
    BehindIsStrictOrder(a, b, a);
  }

  /** No human approves a release of `plugin` in this stretch of a run. */
  ghost predicate Unattended(lib: Lib, w: World, ls: seq<Label>, plugin: string) {
    forall k :: 0 <= k < |ls| ==> !ApprovesPlugin(Run(lib, w, ls[..k]).db, ls[k], plugin)
  }

  /** The live versions around one step have epochs whose difference 64 bits hold. */
  ghost predicate StepFits(lib: Lib, w: World, l: Label, plugin: string) {
    EpochsFit(LiveParsed(w, plugin), LiveParsed(Next(lib, w, l), plugin))
  }

  /** The step leaves the live release, or puts one in its place that is ahead of it. */
  ghost predicate StepClimbs(lib: Lib, w: World, l: Label, plugin: string) {
    || LiveRow(Next(lib, w, l).db.releases, plugin) == LiveRow(w.db.releases, plugin)
    || Behind(LiveParsed(w, plugin), LiveParsed(Next(lib, w, l), plugin))
  }

  ghost predicate AllFit(lib: Lib, w: World, ls: seq<Label>, plugin: string) {
    forall k :: 0 <= k < |ls| ==> StepFits(lib, Run(lib, w, ls[..k]), ls[k], plugin)
  }

  ghost predicate AllClimb(lib: Lib, w: World, ls: seq<Label>, plugin: string) {
    forall k :: 0 <= k < |ls| ==> StepClimbs(lib, Run(lib, w, ls[..k]), ls[k], plugin)
  }

  lemma UnattendedPrefix(lib: Lib, w: World, ls: seq<Label>, n: nat, plugin: string)
    requires n <= |ls| && Unattended(lib, w, ls, plugin)
    ensures Unattended(lib, w, ls[..n], plugin)
    ensures AllFit(lib, w, ls, plugin) ==> AllFit(lib, w, ls[..n], plugin)
  {
    hide Run, ApprovesPlugin, StepFits;
    forall k | 0 <= k < n
      ensures ls[..n][..k] == ls[..k] && ls[..n][k] == ls[k]
    {
    }
  }

  lemma {:induction false} StaysLive(lib: Lib, w: World, ls: seq<Label>, plugin: string)
    requires WorldOk(lib, w) && LiveRow(w.db.releases, plugin).Some? && Unattended(lib, w, ls, plugin)
    ensures WorldOk(lib, Run(lib, w, ls)) && LiveRow(Run(lib, w, ls).db.releases, plugin).Some?
  {
    hide WorldOk, Next, LiveRow, Compare, ApprovesPlugin, LiveParsed, Behind, EpochsFit, DbEvolves;
    RunKeeps(lib, w, ls);
    if ls != [] {
      var n := |ls| - 1;
      UnattendedPrefix(lib, w, ls, n, plugin);
      StaysLive(lib, w, ls[..n], plugin);
      StepAdvances(lib, Run(lib, w, ls[..n]), ls[n], plugin);
    }
  }

  /** Every replacement of an unattended stretch moves the listing forward if and only if every two
      neighbouring live versions have epochs that fit. */
  lemma ClimbsExactlyWhenFits(lib: Lib, w: World, ls: seq<Label>, plugin: string)
    requires WorldOk(lib, w) && LiveRow(w.db.releases, plugin).Some? && Unattended(lib, w, ls, plugin)
    ensures AllClimb(lib, w, ls, plugin) <==> AllFit(lib, w, ls, plugin)
  {
    hide WorldOk, Run, LiveRow, ApprovesPlugin, LiveParsed, Behind, EpochsFit, Next;
    forall k | 0 <= k < |ls|
      ensures StepClimbs(lib, Run(lib, w, ls[..k]), ls[k], plugin) <==> StepFits(lib, Run(lib, w, ls[..k]), ls[k], plugin)
    {
      var mid := Run(lib, w, ls[..k]);
      UnattendedPrefix(lib, w, ls, k, plugin);
      StaysLive(lib, w, ls[..k], plugin);
      StepAdvances(lib, mid, ls[k], plugin);
      SameFits(LiveParsed(mid, plugin));
    }
  }

  lemma SameFits(a: Parsed)
    ensures EpochsFit(a, a)
  {
  }

  /** From the first live version of such a stretch to the last: the same release, or a version that
      is ahead of it. The comparison says so itself exactly when those two epochs fit. */
  lemma {:induction false} LiveVersionsClimb(lib: Lib, w: World, ls: seq<Label>, plugin: string)
    requires WorldOk(lib, w) && LiveRow(w.db.releases, plugin).Some?
    requires Unattended(lib, w, ls, plugin) && AllFit(lib, w, ls, plugin)
    ensures LiveRow(Run(lib, w, ls).db.releases, plugin).Some?
    ensures var a, b := LiveParsed(w, plugin), LiveParsed(Run(lib, w, ls), plugin);
            a == b || (Behind(a, b) && (CompareParsed(a, b) == Higher <==> EpochsFit(a, b)))
  {
    hide WorldOk, Compare, CompareParsed, LiveParsed, LiveRow, Next, ApprovesPlugin, Behind, EpochsFit, DbEvolves, RowsEvolve;
    if ls != [] {
      var n := |ls| - 1;
      var mid := Run(lib, w, ls[..n]);
      UnattendedPrefix(lib, w, ls, n, plugin);
      LiveVersionsClimb(lib, w, ls[..n], plugin);
      StaysLive(lib, w, ls[..n], plugin);
      StepAdvances(lib, mid, ls[n], plugin);
      assert StepFits(lib, mid, ls[n], plugin);
      ClimbOne(LiveParsed(w, plugin), LiveParsed(mid, plugin), LiveParsed(Next(lib, mid, ls[n]), plugin));
    }
  }

  lemma ClimbOne(a: Parsed, b: Parsed, c: Parsed)
    requires WellFormed(a) && WellFormed(c) && (a == b || Behind(a, b)) && (b == c || Behind(b, c))
    ensures a == c || (Behind(a, c) && (CompareParsed(a, c) == Higher <==> EpochsFit(a, c)))
  {
    hide CompareParsed, Behind, EpochsFit;
    BehindIsStrictOrder(a, b, c);
    CompareIsTheOrder(a, c);
    BehindIsStrictOrder(a, c, a);
  }

  lemma NextEvolvesRows(lib: Lib, w: World, l: Label)
    requires WorldOk(lib, w)
    ensures RowsEvolve(w.db.releases, Next(lib, w, l).db.releases)
  {
    hide WorldOk, RowsEvolve, LiveAdvances, Next;
    NextKeeps(lib, w, l);
  }

  // ---- grants ----

  ghost predicate HasHolder(db: Db, plugin: string) {
    exists a :: (plugin, a) in db.grants
  }

  lemma StepKeepsHolder(lib: Lib, w: World, l: Label, plugin: string)
    requires WorldOk(lib, w) && HasHolder(w.db, plugin)
    ensures HasHolder(Next(lib, w, l).db, plugin)
  {
    hide WorldOk, RecordTx, Decide, ReadStep, ReverifyRead, NewSubmission, FetchInRange, TrimSpace, ApproveAdmitted, RowWithId;
    hide NewIndexOf, ImportAll, ClaimUsable, Holders, LiveRow, ReverifyTx;
    var d := Next(lib, w, l).db;
    var a :| (plugin, a) in w.db.grants;
    if l.DoRemove? {
      RemoveLeavesOne(w.db, l.plugin, l.account, l.removed, plugin);
    } else {
      GrantsOnlyGrow(lib, w, l);
      assert (plugin, a) in d.grants;
    }
  }

  /** Removing requires a second holder, so one is left. */
  lemma RemoveLeavesOne(db: Db, from: string, caller: string, removed: string, plugin: string)
    requires HasHolder(db, plugin)
    ensures HasHolder(RemoveTx(db, from, caller, removed).0, plugin)
  {
    var d := RemoveTx(db, from, caller, removed).0;
    var a :| (plugin, a) in db.grants;
    if d != db {
      if plugin != from || a != removed {
        assert (plugin, a) in d.grants;
      } else {
        var others := Holders(db.grants, from) - {removed};
        assert |Holders(db.grants, from)| <= |others| + 1;
        var b :| b in others;
        assert (from, b) in d.grants;
      }
    }
  }

  predicate IsGrantStep(l: Label) {
    l.DoAdd? || l.DoRemove? || l.DoClaim? || l.DoImportGrant?
  }

  /** Publishes, reviews, imports of the catalogue and sign-ins do not touch a grant. */
  lemma OtherStepsKeepGrants(lib: Lib, w: World, l: Label)
    requires !IsGrantStep(l)
    ensures Next(lib, w, l).db.grants == w.db.grants
  {
    hide DirectStep, ReadStep, PublishStep, ReverifyRead, ReverifyTx, NewSubmission, FetchInRange, TrimSpace;
    match l
    case Read(c) =>
      if c in w.calls && w.calls[c].PublishCall? {
        ReadStepOnlyReads(w, c, w.calls[c].req, w.calls[c].pc);
      }
    case Commit(c, id, now) =>
      if c in w.calls && w.calls[c].PublishCall? && w.calls[c].pc.Recording? {
        RecordKeepsGrants(lib, w, c, w.calls[c].req, w.calls[c].pc, id, now);
      }
      if c in w.calls && w.calls[c].ReverifyCall? && w.calls[c].rpc.Rerecording? {
        ReverifyKeepsGrants(w.db, w.calls[c].rpc.row, w.calls[c].reviewer, w.calls[c].rpc.fetch);
      }
    case _ => DirectKeepsGrants(w.db, l);
  }

  lemma DirectKeepsGrants(db: Db, l: Label)
    requires !IsGrantStep(l)
    ensures DirectStep(db, l).grants == db.grants
  {
    hide TrimSpace, ApproveAdmitted, RowWithId, NewIndexOf, ClaimUsable, LiveRow, ImportTx, AddTx, RemoveTx, ClaimTx, ImportGrantTx;
    match l
    case DoImport(seed, ids, now) =>
      if |ids| == |seed| {
        ImportKeepsGrants(db, seed, ids, now);
      }
    case _ =>
  }

  lemma GrantsOnlyGrow(lib: Lib, w: World, l: Label)
    requires WorldOk(lib, w) && !l.DoRemove?
    ensures forall g :: g in w.db.grants ==> g in Next(lib, w, l).db.grants
  {
    hide WorldOk, CallStep, ClaimUsable;
    if !IsGrantStep(l) {
      OtherStepsKeepGrants(lib, w, l);
    }
  }

  lemma ReverifyKeepsGrants(db: Db, row: Release, reviewer: string, fetch: Fetch)
    ensures ReverifyTx(db, row, reviewer, fetch).0.grants == db.grants
  {
    hide RowWithId;
  }

  lemma RecordKeepsGrants(lib: Lib, w: World, c: nat, req: Request, pc: PublishPc, id: string, now: int)
    requires pc.Recording?
    ensures PublishStep(lib, w, c, req, pc.trust, pc.prev, pc.fetch, id, now).db.grants == w.db.grants
  {
    hide Decide, RecordRefusal, InsertProblem, Narrow, Retired, Waiting;
  }

  lemma ImportKeepsGrants(db: Db, seed: seq<Listing>, ids: seq<string>, now: int)
    requires |ids| == |seed|
    ensures ImportTx(db, seed, ids, now).0.grants == db.grants
  {
    hide NewIndexOf, InsertImported;
    if NewIndexOf(seed).Some? {
      IndexKeepsSize(seed);
      if ImportAll(db, NewIndexOf(seed).value, ids, now).Ok? {
        ImportAllKeepsGrants(db, NewIndexOf(seed).value, ids, now);
      }
    }
  }

  lemma {:induction false} ImportAllKeepsGrants(db: Db, ls: seq<Listing>, ids: seq<string>, now: int)
    requires |ids| == |ls| && ImportAll(db, ls, ids, now).Ok?
    ensures ImportAll(db, ls, ids, now).value.grants == db.grants
  {
    if ls != [] {
      ImportAllKeepsGrants(db, ls[..|ls| - 1], ids[..|ls| - 1], now);
    }
  }

  /** Once somebody holds a plugin, somebody always does. */
  lemma {:induction false} HeldStaysHeld(lib: Lib, w: World, ls: seq<Label>, plugin: string)
    requires WorldOk(lib, w) && HasHolder(w.db, plugin)
    ensures HasHolder(Run(lib, w, ls).db, plugin)
  {
    hide WorldOk, Next, HasHolder, DbEvolves;
    if ls != [] {
      HeldStaysHeld(lib, w, ls[..|ls| - 1], plugin);
      RunKeeps(lib, w, ls[..|ls| - 1]);
      StepKeepsHolder(lib, Run(lib, w, ls[..|ls| - 1]), ls[|ls| - 1], plugin);
    }
  }

  /** An attempt to change a plugin's holders by an account that does not hold it as an owner. */
  predicate OutsiderAttempt(db: Db, l: Label) {
    (l.DoAdd? || l.DoRemove?) && OwnerRoleProblem(db.grants, l.plugin, l.account).Some?
  }

  /** Any number of attempts by any number of maintainers and strangers changes nothing. */
  lemma {:induction false} OutsidersChangeNothing(lib: Lib, w: World, ls: seq<Label>)
    requires forall k :: 0 <= k < |ls| ==> OutsiderAttempt(w.db, ls[k])
    ensures Run(lib, w, ls) == w
  {
    hide Next, OutsiderAttempt;
    if ls != [] {
      var n := |ls| - 1;
      assert forall k :: 0 <= k < n ==> ls[..n][k] == ls[k];
      OutsidersChangeNothing(lib, w, ls[..n]);
      OutsiderIsRefused(lib, w, ls[n]);
    }
  }

  lemma OutsiderIsRefused(lib: Lib, w: World, l: Label)
    requires OutsiderAttempt(w.db, l)
    ensures Next(lib, w, l) == w
  {
  }

  /** The steps that may change who holds `plugin`: a change by one of its owners, the claim of its id,
      and a grant imported from owners.json. */
  predicate MayChangeHolders(db: Db, l: Label, plugin: string) {
    || ((l.DoAdd? || l.DoRemove?) && l.plugin == plugin && OwnerAt(db, plugin, l.account))
    || (l.DoClaim? && l.claim.plugin == plugin)
    || (l.DoImportGrant? && l.plugin == plugin)
  }

  ghost predicate SameHolders(db: Db, d: Db, plugin: string) {
    forall a :: ((plugin, a) in db.grants <==> (plugin, a) in d.grants)
             && ((plugin, a) in db.grants ==> d.grants[(plugin, a)] == db.grants[(plugin, a)])
  }

  lemma StepKeepsHolders(lib: Lib, w: World, l: Label, plugin: string)
    requires !MayChangeHolders(w.db, l, plugin)
    ensures SameHolders(w.db, Next(lib, w, l).db, plugin)
  {
    hide CallStep, DirectStep, MayChangeHolders;
    if IsGrantStep(l) {
      DirectKeepsHolders(w.db, l, plugin);
    } else {
      OtherStepsKeepGrants(lib, w, l);
    }
  }

  lemma DirectKeepsHolders(db: Db, l: Label, plugin: string)
    requires IsGrantStep(l) && !MayChangeHolders(db, l, plugin)
    ensures SameHolders(db, DirectStep(db, l), plugin)
  {
    hide ClaimUsable, Holders, TrimSpace, IsPluginId, PluginChecks;
  }

  /** Over any run, whatever else happens in it, who holds a plugin and at which role changes only by the
      steps above: only its owners change it. */
  lemma {:induction false} OnlyOwnersChangeHolders(lib: Lib, w: World, ls: seq<Label>, plugin: string)
    requires forall k :: 0 <= k < |ls| ==> !MayChangeHolders(Run(lib, w, ls[..k]).db, ls[k], plugin)
    ensures SameHolders(w.db, Run(lib, w, ls).db, plugin)
  {
    hide Next, MayChangeHolders, SameHolders;
    if ls == [] {
      HoldersTransitive(w.db, w.db, w.db, plugin);
    } else {
      var n := |ls| - 1;
      forall k | 0 <= k < n
        ensures !MayChangeHolders(Run(lib, w, ls[..n][..k]).db, ls[..n][k], plugin)
      {
        assert ls[..n][..k] == ls[..k] && ls[..n][k] == ls[k];
      }
      OnlyOwnersChangeHolders(lib, w, ls[..n], plugin);
      StepKeepsHolders(lib, Run(lib, w, ls[..n]), ls[n], plugin);
      HoldersTransitive(w.db, Run(lib, w, ls[..n]).db, Run(lib, w, ls).db, plugin);
    }
  }

  lemma HoldersTransitive(a: Db, b: Db, c: Db, plugin: string)
    ensures SameHolders(a, a, plugin)
    ensures SameHolders(a, b, plugin) && SameHolders(b, c, plugin) ==> SameHolders(a, c, plugin)
  {
  }

  predicate OwnerAt(db: Db, plugin: string, account: string) {
    (plugin, account) in db.grants && db.grants[(plugin, account)] == Owner
  }

  ghost predicate HasOwner(db: Db, plugin: string) {
    exists a :: OwnerAt(db, plugin, a)
  }

  /** The guard counts grants of every role. A removal therefore leaves an account that can manage the
      owners exactly when the caller removed somebody else or is not the only one. */
  lemma OwnerRoleSurvives(db: Db, plugin: string, caller: string, removed: string)
    requires RemoveTx(db, plugin, caller, removed).1.Ok?
    ensures HasOwner(RemoveTx(db, plugin, caller, removed).0, plugin)
       <==> caller != removed || exists a :: a != caller && OwnerAt(db, plugin, a)
  {
    var d := RemoveTx(db, plugin, caller, removed).0;
    if caller != removed {
      assert OwnerAt(d, plugin, caller);
    } else if a :| a != caller && OwnerAt(db, plugin, a) {
      assert OwnerAt(d, plugin, a);
    }
    if a :| OwnerAt(d, plugin, a) {
      assert OwnerAt(db, plugin, a) && a != removed;
    }
  }

  /** An owner who shares a plugin with one maintainer can leave, and then nobody can change who holds
      it again: no sequence of attempts by anybody has any effect. */
  lemma LastOwnerCanLeave(lib: Lib, w: World, plugin: string, owner: string, maintainer: string, ls: seq<Label>)
    requires Reachable(lib, w) && owner != maintainer && Holders(w.db.grants, plugin) == {owner, maintainer}
    requires OwnerAt(w.db, plugin, owner) && !OwnerAt(w.db, plugin, maintainer)
    requires forall k :: 0 <= k < |ls| ==> (ls[k].DoAdd? || ls[k].DoRemove?) && ls[k].plugin == plugin
    ensures RemoveTx(w.db, plugin, owner, owner).1.Ok?
    ensures var left := Next(lib, w, DoRemove(plugin, owner, owner));
            !HasOwner(left.db, plugin) && Run(lib, left, ls) == left
  {
    hide Reachable, WorldOk, DbOk, Holders, OutsiderAttempt, HasOwner, RemoveTx, OwnerAt, Run;
    ReachableOk(lib, w);
    DbIn(lib, w);
    SoleOwnerMayLeave(w.db, plugin, owner, maintainer);
    var left := Next(lib, w, DoRemove(plugin, owner, owner));
    assert left.db == RemoveTx(w.db, plugin, owner, owner).0;
    NobodyManages(left.db, plugin, ls);
    OutsidersChangeNothing(lib, left, ls);
  }

  lemma SoleOwnerMayLeave(db: Db, plugin: string, owner: string, maintainer: string)
    requires DbOk(db) && owner != maintainer && Holders(db.grants, plugin) == {owner, maintainer}
    requires OwnerAt(db, plugin, owner) && !OwnerAt(db, plugin, maintainer)
    ensures RemoveTx(db, plugin, owner, owner).1.Ok? && !HasOwner(RemoveTx(db, plugin, owner, owner).0, plugin)
  {
    hide TableOk, ForeignKeysOk, PluginsOk, KeysPoint, RowsKeyed, KeysInjective, LogOk;
    assert |{owner, maintainer}| == 2;
    assert (plugin, owner) in db.grants;
    OwnerRoleSurvives(db, plugin, owner, owner);
    forall a | a != owner
      ensures !OwnerAt(db, plugin, a)
    {
      if (plugin, a) in db.grants {
        assert a in Holders(db.grants, plugin);
      }
    }
  }

  lemma NobodyManages(db: Db, plugin: string, ls: seq<Label>)
    requires !HasOwner(db, plugin)
    requires forall k :: 0 <= k < |ls| ==> (ls[k].DoAdd? || ls[k].DoRemove?) && ls[k].plugin == plugin
    ensures forall k :: 0 <= k < |ls| ==> OutsiderAttempt(db, ls[k])
  {
    forall k | 0 <= k < |ls|
      ensures OutsiderAttempt(db, ls[k])
    {
      assert !OwnerAt(db, plugin, ls[k].account);
    }
  }

  // ---- the index always renders ----

  /** In every reachable state the catalogue can be read, every listing passes the client's rules, and
      the document is the listings as they were read, already in strictly increasing id order. */
  lemma IndexAlwaysRenders(lib: Lib, w: World)
    requires Reachable(lib, w)
    ensures ListingsOf(w.db).Some?
    ensures var ls := ListingsOf(w.db).value;
            && AllRender(ls) && Increasing(ls, ListingId) && NewIndexOf(ls) == Some(ls)
            && forall i :: 0 <= i < |ls| ==> StoredNotes(ls[i].notes) && Importable(ls[i])
  {
    hide WorldOk, DbOk;
    ReachableOk(lib, w);
    DbIn(lib, w);
    RowsRender(w.db);
  }

  lemma RowsRender(db: Db)
    requires DbOk(db)
    ensures ListingsOf(db).Some?
    ensures var ls := ListingsOf(db).value;
            && AllRender(ls) && Increasing(ls, ListingId) && NewIndexOf(ls) == Some(ls)
            && forall i :: 0 <= i < |ls| ==> StoredNotes(ls[i].notes) && Importable(ls[i])
  {
    hide DbOk, OneApproved, Renders, StoredNotes, ListListings, SortBy;
    UniqueVersionsOfDb(db);
    var rows := ListListings(db.plugins, db.releases);
    ListingsIncrease(db.plugins, db.releases);
    RowsComeFromReleases(db.plugins, db.releases);
    forall i | 0 <= i < |rows|
      ensures ListingFrom(rows[i]).Some? && Renders(ListingFrom(rows[i]).value)
      ensures ListingFrom(rows[i]).value.id == rows[i].id && StoredNotes(ListingFrom(rows[i]).value.notes)
      ensures Importable(ListingFrom(rows[i]).value)
    {
      assert rows[i] in rows;
      var j :| 0 <= j < |db.releases| && Joined(db.plugins, db.releases[j])
               && rows[i] == RowOf(db.plugins[db.releases[j].plugin], db.releases[j]);
      RowRenders(db, j);
    }
    var ls := Rendered(rows).value;
    forall i, j | 0 <= i < j < |ls|
      ensures TextLess(ListingId(ls[i]), ListingId(ls[j]))
    {
      assert TextLess(RowId(rows[i]), RowId(rows[j]));
    }
    IncreasingIsDistinct(ls);
    SortOfIncreasing(ls, ListingId);
  }

  lemma RowRenders(db: Db, j: nat)
    requires DbOk(db) && j < |db.releases| && Joined(db.plugins, db.releases[j])
    ensures var row := RowOf(db.plugins[db.releases[j].plugin], db.releases[j]);
            && ListingFrom(row).Some? && Renders(ListingFrom(row).value)
            && ListingFrom(row).value.id == row.id && StoredNotes(ListingFrom(row).value.notes)
            && Importable(ListingFrom(row).value)
  {
    hide KeysPoint, RowsKeyed, KeysInjective, LogOk, UniqueVersions, UniqueIds, PendingNewest, LiveKept, AutoRooted, OneApproved;
    hide HasHttpsPrefix, IsPluginId, TrimSpace, ValidateReleaseNotes;
    var r := db.releases[j];
    AcceptedAreFixedPoints(if r.notes.Some? then r.notes.value else "");
    assert StateOk(r) && TextOk(r.version, r.url, r.sha256, r.bytes, r.notes);
    assert PluginOk(r.plugin, db.plugins[r.plugin]);
  }

  /** The directory counts every plugin once, and its listed count is the length of the index. */
  lemma CountsAddUp(lib: Lib, w: World, query: string)
    requires Reachable(lib, w)
    ensures BrowseOf(w.db, query).Some? && ListingsOf(w.db).Some?
    ensures var b := BrowseOf(w.db, query).value;
            && b.listed + b.awaiting + b.delisted == |w.db.plugins|
            && b.listed == |ListingsOf(w.db).value|
            && SubList(b.plugins, ListingsOf(w.db).value)
            && (query == "" ==> b.plugins == ListingsOf(w.db).value)
  {
    hide WorldOk, DbOk, BrowseOf, ListingsOf, OneApproved, SubList, Reachable;
    Readable(lib, w);
    BrowseAgreesWithIndex(w.db, query);
    CountsOfDb(w.db, query);
  }

  lemma Readable(lib: Lib, w: World)
    requires Reachable(lib, w)
    ensures ListingsOf(w.db).Some? && OneApproved(w.db.releases)
  {
    hide WorldOk, DbOk, ListingsOf, OneApproved, AllRender, Increasing, NewIndexOf, StoredNotes, Reachable;
    IndexAlwaysRenders(lib, w);
    ReachableOk(lib, w);
    DbIn(lib, w);
    UniqueVersionsOfDb(w.db);
  }

  lemma CountsOfDb(db: Db, query: string)
    requires OneApproved(db.releases) && ListingsOf(db).Some? && BrowseOf(db, query).Some?
    ensures var b := BrowseOf(db, query).value;
            b.listed + b.awaiting + b.delisted == |db.plugins| && b.listed == |ListingsOf(db).value|
  {
    hide OneApproved, ListListings, Matching, ListingFrom, AwaitingIds, DelistedIds, ListedCount;
    CatalogueAccounting(db);
  }

  // ---- the seed ----

  /** Whatever a registry serves, captured and imported into an empty one, is served again unchanged. */
  lemma ExportedCatalogueComesBack(lib: Lib, w: World, ids: seq<string>, now: int)
    requires Reachable(lib, w)
    requires var ls := ListingsOf(w.db); ls.Some? && |ids| == |ls.value| && Distinct(ids)
    ensures var restored := Next(lib, START, DoImport(ListingsOf(w.db).value, ids, now));
            ListingsOf(restored.db) == ListingsOf(w.db)
  {
    hide ImportTx, ListingsOf, Increasing, AllRender, StoredNotes, Importable, NewIndexOf, Reachable;
    IndexAlwaysRenders(lib, w);
    if ListingsOf(w.db).value == [] {
      NothingComesBack(ids, now);
    } else {
      SeedRoundTrip(ListingsOf(w.db).value, EMPTY_DB, ids, now);
    }
  }

  lemma NothingComesBack(ids: seq<string>, now: int)
    requires ids == []
    ensures ListingsOf(ImportTx(EMPTY_DB, [], ids, now).0) == Some([])
  {
  }

  /** Once there is a plugin, no import of any seed after any run writes anything. */
  lemma LaterImportsWriteNothing(lib: Lib, w: World, ls: seq<Label>, seed: seq<Listing>, ids: seq<string>, now: int)
    requires Reachable(lib, w) && w.db.plugins != map[]
    ensures Next(lib, Run(lib, w, ls), DoImport(seed, ids, now)) == Run(lib, w, ls)
  {
    hide WorldOk, Run, RowsEvolve, LiveAdvances, NewIndexOf, ImportAll;
    ReachableOk(lib, w);
    RunKeeps(lib, w, ls);
    var plugins := Run(lib, w, ls).db.plugins;
    StillSome(w.db.plugins, plugins);
  }

  lemma StillSome(plugins: map<string, Plugin>, more: map<string, Plugin>)
    requires plugins != map[] && plugins.Keys <= more.Keys
    ensures |more| > 0
  {
    assert plugins.Keys != {};
    assert |more.Keys| > 0;
  }
}
